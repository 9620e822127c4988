/** The DMA completion interrupt: a table from channel to callback, and the handler
    that walks it.  The one callback the driver registers gives the binary
    semaphore it is passed; semaphores are named by their handle here. */
module Dma {
  const NUM_DMA_CHANNELS := 12
  const DMA_IRQ1_CHANNEL_START := NUM_DMA_CHANNELS / 2

  datatype Callback = NoCallback | Gives(semaphore: nat)

  /** Handler 0 gives this channel's semaphore and acknowledges it. */
  predicate Serves(status: seq<bool>, callbacks: seq<Callback>, c: nat)
    requires |status| == |callbacks|
  {
    c < 6 && c < |status| && status[c] && callbacks[c].Gives?
  }

  ghost predicate Given(status: seq<bool>, callbacks: seq<Callback>, h: nat)
    requires |status| == |callbacks|
  {
    exists c: nat :: Serves(status, callbacks, c) && callbacks[c].semaphore == h
  }

  class Dma {
    var callbackList: seq<Callback>
    var irq0Enabled: set<nat>      // channels routed to each interrupt line
    var irq1Enabled: set<nat>
    var status: seq<bool>          // interrupt raised, by channel
    var semaphores: seq<bool>      // binary semaphores, by handle

    ghost predicate Valid()
      reads this`callbackList, this`status, this`semaphores
    {
      && |callbackList| == |status| == NUM_DMA_CHANNELS
      && forall c :: 0 <= c < NUM_DMA_CHANNELS && callbackList[c].Gives? ==> callbackList[c].semaphore < |semaphores|
    }

    /** The boot state: an empty callback list and nothing raised or stored. */
    constructor (handles: nat)
      ensures Valid() && irq0Enabled == irq1Enabled == {}
      ensures callbackList == seq(NUM_DMA_CHANNELS, _ => NoCallback)
      ensures status == seq(NUM_DMA_CHANNELS, _ => false) && semaphores == seq(handles, _ => false)
    {
      callbackList := seq(NUM_DMA_CHANNELS, _ => NoCallback);
      irq0Enabled, irq1Enabled := {}, {};
      status := seq(NUM_DMA_CHANNELS, _ => false);
      semaphores := seq(handles, _ => false);
    }

    method ResetCallbackList()
      requires Valid()
      modifies this`callbackList
      ensures Valid() && callbackList == seq(NUM_DMA_CHANNELS, _ => NoCallback)
    {
      callbackList := seq(NUM_DMA_CHANNELS, _ => NoCallback);
    }

    /** Registers a callback on a channel the hardware has just handed out; the
        channel's half of the range decides which interrupt line serves it. */
    method EnableDma(claimed: nat, callback: Callback) returns (channel: nat)
      requires Valid() && claimed < NUM_DMA_CHANNELS
      requires callback.Gives? ==> callback.semaphore < |semaphores|
      modifies this`callbackList, this`irq0Enabled, this`irq1Enabled
      ensures Valid() && channel == claimed
      ensures callbackList == if callback.Gives? then old(callbackList)[claimed := callback] else old(callbackList)
      ensures irq0Enabled == old(irq0Enabled) + (if callback.Gives?
              && claimed < 6 then {claimed} else {})
      ensures irq1Enabled == old(irq1Enabled) + (if callback.Gives?
              && claimed >= 6 then {claimed} else {})
    {
      channel := claimed;
      if callback != NoCallback {
        callbackList := callbackList[channel := callback];
        if channel < DMA_IRQ1_CHANNEL_START {
          irq0Enabled := irq0Enabled + {channel};
        } else {
          irq1Enabled := irq1Enabled + {channel};
        }
      }
    }

    /** Every raised channel of the lower half that has a callback is given once and
        acknowledged; everything else stays as it was. */
    method DmaHandler0()
      requires Valid()
      modifies this`status, this`semaphores
      ensures Valid() && |semaphores| == |old(semaphores)|
      ensures forall c :: 0 <= c < NUM_DMA_CHANNELS ==>
                status[c] == (old(status[c]) && !Serves(old(status), callbackList, c))
      ensures forall h :: 0 <= h < |semaphores| ==>
                (semaphores[h] <==> old(semaphores)[h] || Given(old(status), callbackList, h))
    {
      for c := 0 to DMA_IRQ1_CHANNEL_START
        invariant Valid() && |semaphores| == |old(semaphores)|
        invariant forall i :: 0 <= i < NUM_DMA_CHANNELS ==>
                    status[i] == (old(status)[i] && !(i < c && Serves(old(status), callbackList, i)))
        invariant forall h :: 0 <= h < |semaphores| ==>
                    (semaphores[h] <==> old(semaphores)[h]
                                        || exists i: nat :: i < c && Serves(old(status),
                                            callbackList, i) && callbackList[i].semaphore == h)
      {
        if status[c] && callbackList[c] != NoCallback {
          assert Serves(old(status), callbackList, c);
          semaphores := semaphores[callbackList[c].semaphore := true];
          status := status[c := false];
        }
      }
    }
  }
}
