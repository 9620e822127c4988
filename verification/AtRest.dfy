/** The wake-up and conservation results put together: when every actor of the
    protocol waits, the work is done. */
module AtRest {
  import opened Registers
  import opened CanFrame
  import opened Protocol
  import opened InterruptProperties
  import opened ReceiveProperties
  import opened TransmitProperties
  import opened ExactlyOnceReceive
  import opened Settling

  predicate SenderAsleep(s: State) {
    s.tx.sender.TakeTx? && !s.tx.sem
  }

  /** Under any schedule: with the service asleep no handled flag is set, no pending
      bit waits for a sleeping reader, and a sleeping sender has its frame in flight. */
  lemma RestMeansNothingMissed(s: State, es: seq<Event>)
    requires Started(s) && ServiceAsleep(After(s, es))
    ensures !Has(Flags(After(s, es)), ENABLED)
    ensures ReaderAsleep(After(s, es)) ==> !Has(After(s, es).rx.pending, 0x03)
    ensures SenderAsleep(After(s, es)) ==> TxRequested(After(s, es).regs)
  {
    NoInterruptIsLost(s, es);
    NoReceiveWakeupIsLost(s, es);
    NoTransmitWakeupIsLost(s, es);
    NoHandledFlag(Flags(After(s, es)));
  }

  /** Without refills, a system at rest has handed over every frame it received. */
  lemma RestMeansAllDelivered(s: State, es: seq<Event>, b: Buffer)
    requires Started(s) && NeverRefills(s, es)
    requires ServiceAsleep(After(s, es)) && ReaderAsleep(After(s, es))
    ensures var box := Box(After(s, es).rx, b);
            |box.delivered| == |box.arrived| && forall i :: 0 <= i < |box.arrived| ==>
                  box.delivered[i] == Received(box.arrived[i])
  {
    var t := After(s, es);
    EveryFrameIsDeliveredOnce(s, es);
    NoInterruptIsLost(s, es);
    NoHandledFlag(Flags(t));
    assert PendingCount(t.rx) == 0;
    assert Places(Flags(t), t.service, t.rx, b) == 0;
    assert Faithful(t.regs, Box(t.rx, b), b.Base());
  }

  lemma {:induction false} ReceivingNeverRefills(s: State, es: seq<Event>, more: seq<Event>)
    requires NeverRefills(s, es) && ReceiverOnly(more)
    ensures NeverRefills(s, es + more)
    decreases |more|
  {
    if more == [] {
      assert es + more == es;
    } else {
      assert (es + more)[..|es + more| - 1] == es + more[..|more| - 1];
      assert more[|more| - 1] in more;
      ReceivingNeverRefills(s, es, more[..|more| - 1]);
    }
  }

  /** After any run without refills, for every schedule of the handler, the service and
      the reader: boundedly many moves are made, and when none is left every frame
      received has been handed over. */
  lemma EveryFrameReachesTheUser(s: State, es: seq<Event>, more: seq<Event>, b: Buffer)
    requires Started(s) && NeverRefills(s, es) && ReceiverOnly(more)
    ensures Moves(After(s, es), more) <= MOST_MOVES
    ensures NoMoveLeft(After(s, es + more)) ==>
              var box := Box(After(s, es + more).rx, b);
              |box.delivered| == |box.arrived| && forall i :: 0 <= i < |box.arrived| ==>
                    box.delivered[i] == Received(box.arrived[i])
  {
    EveryScheduleComesToRest(s, es, more);
    ReceivingNeverRefills(s, es, more);
    if NoMoveLeft(After(s, es + more)) {
      RestMeansAllDelivered(s, es + more, b);
    }
  }
}
