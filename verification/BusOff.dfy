/** Bus-off recovery.  CANCTRL is written in an error pass that reads EFLG with TXBO set,
    into configuration mode and back, and nowhere else. */
module BusOff {
  import opened Registers
  import opened CanFrame
  import opened Protocol
  import opened InterruptProperties

  /** How many steps of the service a schedule makes. */
  function ServiceSteps(s: State, es: seq<Event>): nat {
    if es == [] then 0
    else
      var before := es[..|es| - 1];
      ServiceSteps(s, before) + if es[|es| - 1].ServiceRuns? && Enabled(After(s, before), ServiceRuns) then 1 else 0
  }

  lemma OthersLeaveMode(s: State, e: Event)
    requires Enabled(s, e) && !e.ServiceRuns?
    ensures Step(s, e).service == s.service && Get(Step(s, e).regs, 0x0F) == Get(s.regs, 0x0F)
  {
    if ChipEvent(e) {
      ChipRaises(s, e);
    }
    if e.SenderRuns? && s.tx.sender.Loading? && s.tx.sender.k < SendSize(s.tx.sender.r) {
      SendStaysInBuffer(s.tx.sender.r, s.tx.sender.k);
    }
  }

  /** n steps of the service after its read of an EFLG with TXBO set, CANCTRL having been
      ctrl0: in two more it writes configuration mode, then a normal one. */
  predicate Recovering(n: nat, pc: ServicePc, ctrl: bv8, ctrl0: bv8) {
    match n
    case 0 => ctrl == ctrl0 && pc.ClearErrors?
    case 1 => ctrl == ctrl0 && pc.EnterConfig?
    case 2 => ctrl == 0x80 && pc.LeaveConfig?
    case 3 => ctrl == 0x04 && pc.ErrorUnmark?
    case 4 => ctrl == 0x04 && pc.ErrorGive?
    case 5 => ctrl == 0x04 && pc.TestPin?
    case _ => true
  }

  /** The same with TXBO clear. */
  predicate Unaffected(n: nat, pc: ServicePc, ctrl: bv8, ctrl0: bv8) {
    match n
    case 0 => ctrl == ctrl0 && pc.ClearErrors?
    case 1 => ctrl == ctrl0 && pc.ErrorUnmark?
    case 2 => ctrl == ctrl0 && pc.ErrorGive?
    case 3 => ctrl == ctrl0 && pc.TestPin?
    case _ => true
  }

  predicate Recovery(n: nat, pc: ServicePc, ctrl: bv8, eflg: bv8, ctrl0: bv8) {
    if eflg & 0x20 != 0 then Recovering(n, pc, ctrl, ctrl0) else Unaffected(n, pc, ctrl, ctrl0)
  }

  lemma RecoveryGoesOn(n: nat, v: Service, regs: Regs, ctrl0: bv8)
    requires Recovering(n, v.pc, Get(regs, 0x0F), ctrl0) && (n <= 3 ==> v.eflg & 0x20 != 0)
    ensures Recovering(n + 1, NextPc(v, regs), Get(ServiceRegs(v, regs), 0x0F), ctrl0)
  {}

  lemma UnaffectedGoesOn(n: nat, v: Service, regs: Regs, ctrl0: bv8)
    requires Unaffected(n, v.pc, Get(regs, 0x0F), ctrl0) && (n <= 3 ==> v.eflg & 0x20 == 0)
    ensures Unaffected(n + 1, NextPc(v, regs), Get(ServiceRegs(v, regs), 0x0F), ctrl0)
  {}

  lemma ServiceRecovers(n: nat, v: Service, regs: Regs, eflg: bv8, ctrl0: bv8)
    requires Recovery(n, v.pc, Get(regs, 0x0F), eflg, ctrl0) && (n <= 3 ==> v.eflg == eflg)
    ensures Recovery(n + 1, NextPc(v, regs), Get(ServiceRegs(v, regs), 0x0F), eflg, ctrl0)
    ensures n < 3 ==> NextService(v, regs).eflg == eflg
  {
    if eflg & 0x20 != 0 {
      RecoveryGoesOn(n, v, regs, ctrl0);
    } else {
      UnaffectedGoesOn(n, v, regs, ctrl0);
    }
  }

  /** From every state in which the service is about to read EFLG, in every interleaving:
      if TXBO is set it next clears the error flags, writes CANCTRL into configuration
      mode, writes it back to normal mode and ends its pass; if TXBO is clear it ends its
      pass with CANCTRL as it was. */
  lemma {:induction false} BusOffIsRecovered(s: State, es: seq<Event>)
    requires s.service.pc.ReadEflg?
    ensures var t := After(ServiceStep(s), es);
            Recovery(ServiceSteps(ServiceStep(s), es), t.service.pc, Get(t.regs, 0x0F),
                     Get(s.regs, 0x2D), Get(s.regs, 0x0F))
    ensures ServiceSteps(ServiceStep(s), es) <= 3 ==> After(ServiceStep(s), es).service.eflg == Get(s.regs, 0x2D)
  {
    var s' := ServiceStep(s);
    if es != [] {
      var before, e := es[..|es| - 1], es[|es| - 1];
      var t := After(s', before);
      BusOffIsRecovered(s, before);
      if Enabled(t, e) {
        if !e.ServiceRuns? {
          OthersLeaveMode(t, e);
        } else {
          ServiceRecovers(ServiceSteps(s', before), t.service, t.regs, Get(s.regs, 0x2D), Get(s.regs, 0x0F));
        }
      }
    }
  }

  // ----- CANCTRL over whole runs

  /** EFLG as the service last read it. */
  function LastEflg(s: State, es: seq<Event>): bv8 {
    if es == [] then 0
    else
      var before := es[..|es| - 1];
      if es[|es| - 1].ServiceRuns? && After(s, before).service.pc.ReadEflg?
      then Get(After(s, before).regs, 0x2D) else LastEflg(s, before)
  }

  predicate ModeFacts(v: Service, ctrl: bv8, ctrl0: bv8, eflg: bv8) {
    && (v.pc.EnterConfig? || v.pc.LeaveConfig? ==> eflg & 0x20 != 0)
    && (InErrorBranch(v.pc) && !v.pc.ReadEflg? ==> v.eflg == eflg)
    && (if v.pc.LeaveConfig? then ctrl == 0x80 else ctrl == ctrl0 || ctrl == 0x04)
  }

  lemma ServiceKeepsMode(v: Service, regs: Regs, ctrl0: bv8, eflg: bv8)
    requires ModeFacts(v, Get(regs, 0x0F), ctrl0, eflg)
    ensures ModeFacts(NextService(v, regs), Get(ServiceRegs(v, regs), 0x0F), ctrl0,
                      if v.pc.ReadEflg? then Get(regs, 0x2D) else eflg)
    ensures !v.pc.EnterConfig? && !v.pc.LeaveConfig? ==> Get(ServiceRegs(v, regs), 0x0F) == Get(regs, 0x0F)
  {}

  lemma StepKeepsMode(s: State, e: Event, ctrl0: bv8, eflg: bv8)
    requires Enabled(s, e) && ModeFacts(s.service, Get(s.regs, 0x0F), ctrl0, eflg)
    ensures ModeFacts(Step(s, e).service, Get(Step(s, e).regs, 0x0F), ctrl0,
                      if e.ServiceRuns? && s.service.pc.ReadEflg? then Get(s.regs, 0x2D) else eflg)
  {
    if e.ServiceRuns? {
      ServiceKeepsMode(s.service, s.regs, ctrl0, eflg);
    } else {
      OthersLeaveMode(s, e);
    }
  }

  /** In every run: except between the two writes of a recovery, CANCTRL is as at the start
      or in normal mode; so it is whenever the service is not in an error pass. */
  lemma {:induction false} ModeIsNormal(s: State, es: seq<Event>)
    requires Started(s)
    ensures ModeFacts(After(s, es).service, Get(After(s, es).regs, 0x0F), Get(s.regs, 0x0F), LastEflg(s, es))
    ensures var t := After(s, es);
            !InErrorBranch(t.service.pc) ==>
              Get(t.regs, 0x0F) == Get(s.regs, 0x0F) || Get(t.regs, 0x0F) == 0x04
  {
    if es != [] {
      var before, e := es[..|es| - 1], es[|es| - 1];
      var t := After(s, before);
      ModeIsNormal(s, before);
      if Enabled(t, e) {
        StepKeepsMode(t, e, Get(s.regs, 0x0F), LastEflg(s, before));
      }
    }
  }

  /** In every run, a step that changes CANCTRL is the service's, in an error pass that read
      TXBO. */
  lemma OnlyBusOffChangesMode(s: State, es: seq<Event>, e: Event)
    requires Started(s) && Enabled(After(s, es), e)
    requires Get(Step(After(s, es), e).regs, 0x0F) != Get(After(s, es).regs, 0x0F)
    ensures e.ServiceRuns? && InErrorBranch(After(s, es).service.pc) && LastEflg(s, es) & 0x20 != 0
  {
    var t := After(s, es);
    ModeIsNormal(s, es);
    if e.ServiceRuns? {
      ServiceKeepsMode(t.service, t.regs, Get(s.regs, 0x0F), LastEflg(s, es));
    } else {
      OthersLeaveMode(t, e);
    }
  }
}
