/** Which frames reach the bus.  A rewrite of TXB0 under an outstanding TXREQ is
    harmless as long as the chip does not send in the middle of a load; for every send
    the exact condition under which a mixed frame can go out is stated. */
module BusFrames {
  import opened Registers
  import opened CanFrame
  import opened Protocol
  import opened InterruptProperties
  import opened TransmitProperties
  import opened OneFrameAtATime

  /** The chip sends while a load is past its first write and short of its last. */
  predicate SendsMidLoad(s: State, e: Event) {
    e.Transmitted? && s.tx.sender.Loading? && s.tx.sender.k > 0
  }

  predicate NeverSendsMidLoad(s: State, es: seq<Event>) {
    es == [] ||
    var t, e := After(s, es[..|es| - 1]), es[|es| - 1];
    NeverSendsMidLoad(s, es[..|es| - 1]) && (Enabled(t, e) ==> !SendsMidLoad(t, e))
  }

  /** The frames are those of some of the requests, in their order, once each. */
  predicate Selected(frames: seq<WireFrame>, requests: seq<Request>) {
    frames == [] ||
    (requests != [] &&
     ((frames[|frames| - 1] == Requested(requests[|requests| - 1])
         && Selected(frames[..|frames| - 1], requests[..|requests| - 1]))
      || Selected(frames, requests[..|requests| - 1])))
  }

  /** Every frame selected is some request's. */
  lemma {:induction false} SelectedAreRequested(frames: seq<WireFrame>, requests: seq<Request>, i: nat)
    requires Selected(frames, requests) && i < |frames|
    ensures exists r :: r in requests && frames[i] == Requested(r)
    decreases |requests|
  {
    var last := requests[|requests| - 1];
    if frames[|frames| - 1] == Requested(last) && Selected(frames[..|frames| - 1], requests[..|requests| - 1]) {
      if i == |frames| - 1 {
        assert last in requests;
      } else {
        SelectedAreRequested(frames[..|frames| - 1], requests[..|requests| - 1], i);
      }
    } else {
      SelectedAreRequested(frames, requests[..|requests| - 1], i);
    }
  }

  // ----- The invariant

  predicate MidLoad(pc: SenderPc) {
    pc.Loading? && pc.k > 0
  }

  /** The requests whose load has ended. */
  function Loaded(tx: SendSide): seq<Request> {
    if tx.sender.Loading? && tx.requests != [] then tx.requests[..|tx.requests| - 1] else tx.requests
  }

  /** Of the loaded requests, those that can be on the bus already. */
  function Outgone(standing: bool, loaded: seq<Request>): seq<Request> {
    if standing && loaded != [] then loaded[..|loaded| - 1] else loaded
  }

  /** The send side, with a TXREQ standing or not and a frame in TXB0. */
  predicate Sending(tx: SendSide, standing: bool, frame: WireFrame) {
    && (tx.sender.Loading? ==> tx.requests != [] && tx.requests[|tx.requests| - 1] == tx.sender.r)
    && (standing ==> Loaded(tx) != [])
    && Selected(tx.transmitted, Outgone(standing, Loaded(tx)))
    && (standing && !MidLoad(tx.sender) ==> frame == Requested(Loaded(tx)[|Loaded(tx)| - 1]))
  }

  predicate OnBus(regs: Regs, tx: SendSide) {
    Sending(tx, TxRequested(regs), OnWire(regs, TXB0CTRL))
  }

  lemma OthersLeaveBus(s: State, e: Event)
    requires Enabled(s, e) && !e.SenderRuns? && !e.Transmitted?
    ensures var s' := Step(s, e);
            && TxRequested(s'.regs) == TxRequested(s.regs) && SameLoadArea(s.regs, s'.regs)
            && s'.tx.requests == s.tx.requests && s'.tx.transmitted == s.tx.transmitted
            && (s'.tx.sender == s.tx.sender || (!s.tx.sender.Loading? && !s'.tx.sender.Loading?))
  {
    OthersLeaveLoad(s, e);
    ServiceKeepsCtrl(s.service, s.regs);
    TxNext(s.service, s.regs, s.tx);
  }

  lemma StillSending(tx: SendSide, tx': SendSide, standing: bool, frame: WireFrame, frame': WireFrame)
    requires Sending(tx, standing, frame)
    requires tx'.requests == tx.requests && tx'.transmitted == tx.transmitted
    requires tx'.sender == tx.sender || (!tx.sender.Loading? && !tx'.sender.Loading?)
    requires standing && !MidLoad(tx.sender) ==> frame' == frame
    ensures Sending(tx', standing, frame')
  {}

  lemma OthersKeepOnBus(s: State, e: Event)
    requires Enabled(s, e) && !e.SenderRuns? && !e.Transmitted? && OnBus(s.regs, s.tx)
    ensures OnBus(Step(s, e).regs, Step(s, e).tx)
  {
    OthersLeaveBus(s, e);
    var regs' := Step(s, e).regs;
    if TxRequested(s.regs) && !MidLoad(s.tx.sender) {
      SameLoadSameFrame(s.regs, regs');
    }
    StillSending(s.tx, Step(s, e).tx, TxRequested(s.regs), OnWire(s.regs, TXB0CTRL), OnWire(regs', TXB0CTRL));
  }

  lemma TransmittedKeepsOnBus(s: State)
    requires TxRequested(s.regs) && !MidLoad(s.tx.sender) && OnBus(s.regs, s.tx)
    ensures OnBus(TransmittedStep(s).regs, TransmittedStep(s).tx)
  {}

  lemma MarkGoesOn(tx: SendSide, standing: bool, frame: WireFrame)
    requires Sending(tx, standing, frame) && tx.sender.MarkTx?
    ensures Sending(SenderTx(tx), standing, frame)
  {}

  lemma CallGoesOn(tx: SendSide, standing: bool, frame: WireFrame)
    requires Sending(tx, standing, frame) && !tx.sender.Loading?
    ensures Sending(SenderTx(tx), standing, frame)
  {
    if tx.sender.MarkTx? {
      MarkGoesOn(tx, standing, frame);
    } else {
      assert Loaded(SenderTx(tx)) == Loaded(tx);
    }
  }

  lemma LoadGoesOn(tx: SendSide, standing: bool, frame: WireFrame, frame': WireFrame)
    requires Sending(tx, standing, frame) && tx.sender.Loading? && tx.sender.k + 1 < SendSize(tx.sender.r)
    ensures Sending(SenderTx(tx), standing, frame')
  {}

  lemma LoadEnds(tx: SendSide, standing: bool, frame: WireFrame)
    requires Sending(tx, standing, frame) && tx.sender.Loading? && tx.sender.k + 1 == SendSize(tx.sender.r)
    ensures Sending(SenderTx(tx), true, Requested(tx.sender.r))
  {}

  lemma SenderKeepsOnBus(s: State)
    requires OnBus(s.regs, s.tx) && LoadStands(s)
    ensures OnBus(SenderStep(s).regs, SenderStep(s).tx)
  {
    var frame, frame' := OnWire(s.regs, TXB0CTRL), OnWire(SenderStep(s).regs, TXB0CTRL);
    SenderLeavesFlags(s.tx.sender, s.regs);
    if !s.tx.sender.Loading? {
      CallGoesOn(s.tx, TxRequested(s.regs), frame);
    } else if s.tx.sender.k + 1 < SendSize(s.tx.sender.r) {
      LoadGoesOn(s.tx, TxRequested(s.regs), frame, frame');
    } else {
      NextWriteLands(s.regs, s.tx.sender.r, s.tx.sender.k);
      LandedIsRequested(s.tx.sender.r, SenderStep(s).regs);
      LoadEnds(s.tx, TxRequested(s.regs), frame);
    }
  }

  lemma StepKeepsOnBus(s: State, e: Event)
    requires Enabled(s, e) && !SendsMidLoad(s, e) && OnBus(s.regs, s.tx) && LoadStands(s)
    ensures OnBus(Step(s, e).regs, Step(s, e).tx) && LoadStands(Step(s, e))
  {
    StepKeepsLoad(s, e);
    if e.SenderRuns? {
      SenderKeepsOnBus(s);
    } else if e.Transmitted? {
      TransmittedKeepsOnBus(s);
    } else {
      OthersKeepOnBus(s, e);
    }
  }

  lemma {:induction false} OnBusStays(s: State, es: seq<Event>)
    requires Started(s) && NeverSendsMidLoad(s, es)
    ensures OnBus(After(s, es).regs, After(s, es).tx) && LoadStands(After(s, es))
  {
    if es != [] {
      var t, e := After(s, es[..|es| - 1]), es[|es| - 1];
      OnBusStays(s, es[..|es| - 1]);
      if Enabled(t, e) {
        StepKeepsOnBus(t, e);
      }
    }
  }

  /** In every run, rewrites and errors included, in which the chip never sends in the
      middle of a load: the frames on the bus are requested ones, whole, in the order
      asked for and at most once each. */
  lemma BusCarriesRequests(s: State, es: seq<Event>)
    requires Started(s) && NeverSendsMidLoad(s, es)
    ensures Selected(After(s, es).tx.transmitted, After(s, es).tx.requests)
    ensures var tx := After(s, es).tx;
            forall i :: 0 <= i < |tx.transmitted| ==> exists r :: r in tx.requests && tx.transmitted[i] == Requested(r)
  {
    var t := After(s, es);
    OnBusStays(s, es);
    SelectedPrefix(t.tx.transmitted, Loaded(t.tx), Outgone(TxRequested(t.regs), Loaded(t.tx)));
    SelectedPrefix(t.tx.transmitted, t.tx.requests, Loaded(t.tx));
    forall i | 0 <= i < |t.tx.transmitted|
      ensures exists r :: r in t.tx.requests && t.tx.transmitted[i] == Requested(r)
    {
      SelectedAreRequested(t.tx.transmitted, t.tx.requests, i);
    }
  }

  lemma SelectedPrefix(frames: seq<WireFrame>, requests: seq<Request>, prefix: seq<Request>)
    requires Selected(frames, prefix)
             && (prefix == requests || (requests != [] && prefix == requests[..|requests| - 1]))
    ensures Selected(frames, requests)
  {}

  // ----- When a send can put a mixed frame on the bus

  /** Every register a frame in TXB0 can depend on. */
  predicate SameFrameArea(regs: Regs, regs': Regs) {
    forall a: Addr :: TXB0CTRL < a <= TXB0CTRL + 20 ==> Get(regs, a) == Get(regs', a)
  }

  lemma SameAreaSameFrame(regs: Regs, regs': Regs)
    requires SameFrameArea(regs, regs')
    ensures OnWire(regs', TXB0CTRL) == OnWire(regs, TXB0CTRL)
  {}

  lemma ServiceLeavesArea(v: Service, regs: Regs)
    ensures SameFrameArea(regs, ServiceRegs(v, regs))
  {}

  lemma ChipLeavesArea(s: State, e: Event)
    requires ChipEvent(e) && Enabled(s, e)
    ensures SameFrameArea(s.regs, Step(s, e).regs)
  {}

  lemma OthersLeaveArea(s: State, e: Event)
    requires Enabled(s, e) && !e.SenderRuns?
    ensures SameFrameArea(s.regs, Step(s, e).regs)
  {
    if e.ServiceRuns? {
      ServiceLeavesArea(s.service, s.regs);
    } else if ChipEvent(e) {
      ChipLeavesArea(s, e);
    }
  }

  /** A send at its test at first, followed to tx and regs: TXB0 is as it was, and then as
      the writes made so far leave it. */
  predicate FollowsCall(tx0: SendSide, regs0: Regs, tx: SendSide, regs: Regs)
    requires tx0.sender.TestTx?
  {
    var r, n := tx0.sender.r, |tx0.requests|;
    && InPlan(tx) && |tx.requests| >= n
    && (|tx.requests| == n ==>
          tx.requests == tx0.requests && InCall(tx.sender) && tx.sender.r == r && SameFrameArea(regs0, regs))
    && (|tx.requests| == n + 1 ==> tx.requests == tx0.requests + [r])
    && (|tx.requests| == n + 1 && tx.sender.Loading? ==>
          tx.sender.r == r && SameFrameArea(SentPrefix(regs0, r, tx.sender.k), regs))
  }

  predicate CallIsAt(s: State, t: State)
    requires s.tx.sender.TestTx?
  {
    FollowsCall(s.tx, s.regs, t.tx, t.regs)
  }

  lemma WriteKeepsArea(regs: Regs, r: Request, k: nat, regs': Regs)
    requires k < SendSize(r) && SameFrameArea(SentPrefix(regs, r, k), regs')
    ensures SameFrameArea(SentPrefix(regs, r, k + 1), Write(regs', SendAddress(r, k), SendValue(r, k)))
  {
    SendStaysInBuffer(r, k);
    var a, v, prefix := SendAddress(r, k), SendValue(r, k), SentPrefix(regs, r, k);
    var one, other := prefix[a := v], regs'[a := v];
    assert SentPrefix(regs, r, k + 1) == one && Write(regs', a, v) == other;
    forall b: Addr | TXB0CTRL < b <= TXB0CTRL + 20
      ensures Get(one, b) == Get(other, b)
    {
      assert Get(prefix, b) == Get(regs', b);
    }
  }

  lemma MarkGoesOnFollowed(tx0: SendSide, regs0: Regs, tx: SendSide, regs: Regs)
    requires tx0.sender.TestTx? && FollowsCall(tx0, regs0, tx, regs) && tx.sender.MarkTx?
    ensures FollowsCall(tx0, regs0, SenderTx(tx), regs)
  {}

  /** A call before its marking only moves on in its own call. */
  lemma CallStaysInCall(tx: SendSide)
    requires !tx.sender.Loading? && !tx.sender.MarkTx?
    ensures SenderTx(tx).requests == tx.requests
    ensures var pc := SenderTx(tx).sender; pc == tx.sender || (InCall(pc) && InCall(tx.sender) && pc.r == tx.sender.r)
  {}

  lemma CallGoesOnFollowed(tx0: SendSide, regs0: Regs, tx: SendSide, regs: Regs, tx': SendSide)
    requires tx0.sender.TestTx? && FollowsCall(tx0, regs0, tx, regs) && !tx.sender.Loading?
    requires tx'.requests == tx.requests
    requires tx'.sender == tx.sender || (InCall(tx'.sender) && InCall(tx.sender) && tx'.sender.r == tx.sender.r)
    ensures FollowsCall(tx0, regs0, tx', regs)
  {}

  lemma LoadGoesOnFollowed(tx0: SendSide, regs0: Regs, tx: SendSide, regs: Regs)
    requires tx0.sender.TestTx? && FollowsCall(tx0, regs0, tx, regs) && tx.sender.Loading?
    ensures FollowsCall(tx0, regs0, SenderTx(tx), SenderRegs(tx.sender, regs))
  {
    if |tx.requests| == |tx0.requests| + 1 {
      WriteKeepsArea(regs0, tx.sender.r, tx.sender.k, regs);
    }
  }

  lemma SenderFollowsCall(s: State, t: State)
    requires s.tx.sender.TestTx? && CallIsAt(s, t)
    ensures CallIsAt(s, SenderStep(t))
  {
    if t.tx.sender.Loading? {
      LoadGoesOnFollowed(s.tx, s.regs, t.tx, t.regs);
    } else if t.tx.sender.MarkTx? {
      MarkGoesOnFollowed(s.tx, s.regs, t.tx, t.regs);
    } else {
      CallStaysInCall(t.tx);
      CallGoesOnFollowed(s.tx, s.regs, t.tx, t.regs, SenderTx(t.tx));
    }
  }

  lemma OthersFollowCall(s: State, t: State, e: Event)
    requires s.tx.sender.TestTx? && CallIsAt(s, t) && Enabled(t, e) && !e.SenderRuns?
    ensures CallIsAt(s, Step(t, e))
  {
    OthersLeaveArea(t, e);
    TxNext(t.service, t.regs, t.tx);
    assert Step(t, e).tx.requests == t.tx.requests;
    assert Step(t, e).tx.sender == t.tx.sender || (t.tx.sender.SenderIdle? && Step(t, e).tx.sender.TestTx?);
  }

  lemma {:induction false} CallIsFollowed(s: State, es: seq<Event>)
    requires s.tx.sender.TestTx?
    ensures CallIsAt(s, After(s, es))
  {
    if es != [] {
      var t, e := After(s, es[..|es| - 1]), es[|es| - 1];
      CallIsFollowed(s, es[..|es| - 1]);
      if Enabled(t, e) {
        if e.SenderRuns? {
          SenderFollowsCall(s, t);
        } else {
          OthersFollowCall(s, t, e);
        }
      }
    }
  }

  /** Neither the frame that stands in s nor the one its send asks for. */
  predicate IsMixed(s: State, frame: WireFrame)
    requires s.tx.sender.TestTx?
  {
    frame != OnWire(s.regs, TXB0CTRL) && frame != Requested(s.tx.sender.r)
  }

  /** In t the send at its test in s is loading, and the chip, TXREQ standing, may put a
      mixed frame on the bus next. */
  predicate MaySendMixed(s: State, t: State)
    requires s.tx.sender.TestTx?
  {
    && Rewriting(t, |s.tx.requests| + 1) && Enabled(t, Transmitted)
    && var sent := TransmittedStep(t).tx.transmitted; sent != [] && IsMixed(s, sent[|sent| - 1])
  }

  ghost predicate CanSendMixed(s: State)
    requires s.tx.sender.TestTx?
  {
    exists es :: ErrorFree(es) && MaySendMixed(s, After(s, es))
  }

  ghost predicate CanSendMixedAmidErrors(s: State)
    requires s.tx.sender.TestTx?
  {
    exists es :: MaySendMixed(s, After(s, es))
  }

  predicate MixedAfter(s: State, k: nat)
    requires s.tx.sender.TestTx? && k < SendSize(s.tx.sender.r)
  {
    IsMixed(s, OnWire(SentPrefix(s.regs, s.tx.sender.r, k), TXB0CTRL))
  }

  /** Some first writes of the send make a mixed frame of what TXB0 holds now. */
  ghost predicate LoadMixes(s: State)
    requires s.tx.sender.TestTx?
  {
    exists k: nat :: k < SendSize(s.tx.sender.r) && MixedAfter(s, k)
  }

  lemma MixedMeansLoadMixes(s: State, es: seq<Event>)
    requires s.tx.sender.TestTx? && MaySendMixed(s, After(s, es))
    ensures LoadMixes(s)
  {
    var t := After(s, es);
    CallIsFollowed(s, es);
    SameAreaSameFrame(SentPrefix(s.regs, s.tx.sender.r, t.tx.sender.k), t.regs);
    assert MixedAfter(s, t.tx.sender.k);
  }

  /** The first k writes of a load, with nothing in between. */
  lemma {:induction false} LoadReaches(s: State, r: Request, k: nat) returns (es: seq<Event>)
    requires s.tx.sender == Loading(r, 0) && TxRequested(s.regs) && k < SendSize(r)
    ensures ErrorFree(es)
    ensures var t := After(s, es); t.tx.sender == Loading(r, k) && t.tx.requests == s.tx.requests && TxRequested(t.regs)
  {
    es := [];
    if k > 0 {
      es := LoadReaches(s, r, k - 1);
      var t := After(s, es);
      SenderLeavesFlags(t.tx.sender, t.regs);
      AfterOne(t, SenderRuns);
      AfterConcat(s, es, [SenderRuns]);
      es := es + [SenderRuns];
    }
  }

  /** From the start of its load, TXREQ standing, a send can come to any of its mixes. */
  lemma LoadCanMix(s: State, es: seq<Event>, k: nat) returns (more: seq<Event>)
    requires s.tx.sender.TestTx? && k < SendSize(s.tx.sender.r) && MixedAfter(s, k)
    requires Rewriting(After(s, es), |s.tx.requests| + 1) && After(s, es).tx.sender == Loading(s.tx.sender.r, 0)
    ensures ErrorFree(more) && MaySendMixed(s, After(s, es + more))
  {
    more := LoadReaches(After(s, es), s.tx.sender.r, k);
    AfterConcat(s, es, more);
    CallIsFollowed(s, es + more);
    SameAreaSameFrame(SentPrefix(s.regs, s.tx.sender.r, k), After(s, es + more).regs);
  }

  /** After any run at all, errors included: with no error to come, a send at its test can
      lead to a mixed frame on the bus if and only if it can come to rewrite TXB0 and some
      first writes of it make one of what TXB0 holds. */
  lemma MixedFramesNeedRewrite(s0: State, es0: seq<Event>)
    requires Started(s0) && After(s0, es0).tx.sender.TestTx?
    ensures var s := After(s0, es0); CanSendMixed(s) <==> TxRequested(s.regs) && PassesTest(s) && LoadMixes(s)
  {
    var s := After(s0, es0);
    RewriteNeedsToken(s0, es0);
    if CanSendMixed(s) {
      var es :| ErrorFree(es) && MaySendMixed(s, After(s, es));
      MixedMeansLoadMixes(s, es);
    }
    if TxRequested(s.regs) && PassesTest(s) && LoadMixes(s) {
      var k: nat :| k < SendSize(s.tx.sender.r) && MixedAfter(s, k);
      var es := CallReachesLoad(s0, es0);
      var more := LoadCanMix(s, es, k);
      assert ErrorFree(es + more);
    }
  }

  lemma LoadCanMixAmidErrors(s0: State, es0: seq<Event>, k: nat) returns (es: seq<Event>)
    requires Started(s0) && After(s0, es0).tx.sender.TestTx? && TxRequested(After(s0, es0).regs)
    requires k < SendSize(After(s0, es0).tx.sender.r) && MixedAfter(After(s0, es0), k)
    ensures MaySendMixed(After(s0, es0), After(After(s0, es0), es))
  {
    var s := After(s0, es0);
    var token := ErrorBringsToken(s0, es0);
    var load := TestLeadsToLoad(After(s, token));
    AfterConcat(s, token, load);
    var more := LoadCanMix(s, token + load, k);
    es := token + load + more;
  }

  /** The same with errors to come: then a standing TXREQ is enough to rewrite. */
  lemma MixedFramesAmidErrors(s0: State, es0: seq<Event>)
    requires Started(s0) && After(s0, es0).tx.sender.TestTx?
    ensures var s := After(s0, es0); CanSendMixedAmidErrors(s) <==> TxRequested(s.regs) && LoadMixes(s)
  {
    var s := After(s0, es0);
    RewriteAmidErrors(s0, es0);
    if CanSendMixedAmidErrors(s) {
      var es :| MaySendMixed(s, After(s, es));
      MixedMeansLoadMixes(s, es);
    }
    if TxRequested(s.regs) && LoadMixes(s) {
      var k: nat :| k < SendSize(s.tx.sender.r) && MixedAfter(s, k);
      var es := LoadCanMixAmidErrors(s0, es0, k);
    }
  }

  // ----- And it happens

  const FIRST: Request := SendArguments(0x007, [])
  const NEXT: Request := SendArguments(0x7F8, [])

  lemma MixedIdentifier(sidh: bv8, sidl: bv8, eid8: bv8, eid0: bv8)
    requires !Has(sidl, EXIDE) && WireId(sidh, sidl, eid8, eid0) == 0x007
    ensures WireId(Byte(0x7F8 >> 3), sidl, eid8, eid0) == 0x7FF
  {}

  lemma TwoRequests()
    ensures Requested(FIRST) == WireFrame(false, 0x007, []) && Requested(NEXT) == WireFrame(false, 0x7F8, [])
    ensures SendAddress(NEXT, 0) == TXB0CTRL + SIDH && SendValue(NEXT, 0) == Byte(0x7F8 >> 3)
  {}

  /** TXB0 after the first write of a load over a frame that still stands. */
  lemma FirstWriteMixes(s: State)
    requires s.tx.sender == TestTx(NEXT) && OnWire(s.regs, TXB0CTRL) == Requested(FIRST)
    ensures LoadMixes(s)
  {
    TwoRequests();
    MixedIdentifier(Get(s.regs, TXB0CTRL + SIDH), Get(s.regs, TXB0CTRL + SIDL),
                    Get(s.regs, TXB0CTRL + EID8), Get(s.regs, TXB0CTRL + EID0));
    assert |Payload(s.regs, TXB0CTRL)| == 0;
    var k := 1;
    assert SentPrefix(s.regs, NEXT, k)
        == Write(SentPrefix(s.regs, NEXT, k - 1), SendAddress(NEXT, k - 1), SendValue(NEXT, k - 1));
    assert OnWire(SentPrefix(s.regs, NEXT, k), TXB0CTRL) == WireFrame(false, 0x7FF, []);
    assert MixedAfter(s, k);
  }

  /** The mix is the frame that leaves. */
  predicate MixLast(s: State, tx: SendSide)
    requires s.tx.sender.TestTx?
  {
    && tx.requests == s.tx.requests + [s.tx.sender.r]
    && tx.transmitted != [] && IsMixed(s, tx.transmitted[|tx.transmitted| - 1])
  }

  lemma MixLeaves(s: State, t: State)
    requires s.tx.sender.TestTx? && CallIsAt(s, t) && MaySendMixed(s, t)
    ensures Enabled(t, Transmitted) && MixLast(s, TransmittedStep(t).tx)
  {}

  lemma MixGoesOut(s: State, mix: seq<Event>)
    requires s.tx.sender.TestTx? && MaySendMixed(s, After(s, mix))
    ensures MixLast(s, After(s, mix + [Transmitted]).tx)
  {
    CallIsFollowed(s, mix);
    MixLeaves(s, After(s, mix));
    AfterOne(After(s, mix), Transmitted);
    AfterConcat(s, mix, [Transmitted]);
  }

  lemma ThirdSendMixes(s: State) returns (es: seq<Event>)
    requires Started(s)
    ensures ErrorFree(es)
    ensures var t := After(s, es);
            && t.tx.sender == TestTx(NEXT) && t.tx.requests == [FIRST, FIRST]
            && OnWire(t.regs, TXB0CTRL) == Requested(FIRST) && CanSendMixed(t)
  {
    var two := SecondSendRuns(s, FIRST);
    AfterOne(After(s, two), StartSend(NEXT));
    AfterConcat(s, two, [StartSend(NEXT)]);
    es := two + [StartSend(NEXT)];
    FirstWriteMixes(After(s, es));
    MixedFramesNeedRewrite(s, es);
  }

  /** The last frame on the bus is no request's. */
  predicate LastIsNobodys(tx: SendSide) {
    tx.transmitted != [] &&
    forall r :: r in tx.requests ==> tx.transmitted[|tx.transmitted| - 1] != Requested(r)
  }

  lemma MixIsNobodys(s: State, tx: SendSide)
    requires s.tx.sender.TestTx? && MixLast(s, tx)
    requires forall r :: r in s.tx.requests ==> OnWire(s.regs, TXB0CTRL) == Requested(r)
    ensures LastIsNobodys(tx)
  {}

  /** From every start: a run without errors that puts a frame on the bus nobody asked for. */
  lemma MixedFrameCanGoOut(s: State) returns (es: seq<Event>)
    requires Started(s)
    ensures ErrorFree(es)
    ensures LastIsNobodys(After(s, es).tx)
  {
    var third := ThirdSendMixes(s);
    var t := After(s, third);
    var mix :| ErrorFree(mix) && MaySendMixed(t, After(t, mix));
    MixGoesOut(t, mix);
    AfterConcat(s, third, mix + [Transmitted]);
    es := third + (mix + [Transmitted]);
    MixIsNobodys(t, After(s, es).tx);
  }
}
