/** The bus comes free again.  Whoever holds the mutex returns after a number of its own
    steps that its place alone decides, so every started command can return. */
module BusProgress {
  import opened SpiDevice
  import opened BusRefinement

  /** Own steps of a task from its place to the return of its call. */
  function StepsLeft(pc: TaskPc): int {
    match pc
    case Idle => 0
    case TakeMutex(c) => 6 + |CommandBytes(c)|
    case Activate(c) => 5 + |CommandBytes(c)|
    case PullLow(c) => 4 + |CommandBytes(c)|
    case Shift(c, k) => 3 + |CommandBytes(c)| - k
    case Deactivate(_, _) => 3
    case PullHigh(_, _) => 2
    case GiveMutex(_, _) => 1
  }

  /** How often a task moves in a schedule. */
  function OwnSteps(b: Bus, es: seq<BusEvent>, i: nat): nat {
    if es == [] then 0
    else
      var before, e := es[..|es| - 1], es[|es| - 1];
      OwnSteps(b, before, i) + if e == Runs(i) && Enabled(After(b, before), e) then 1 else 0
  }

  function CommandOf(pc: TaskPc): Command
    requires !pc.Idle?
  {
    pc.c
  }

  /** The call of task i that stood at place pc0, n of its own steps on: still under way
      with the mutex its own, or the first to have returned since. */
  predicate Progressing(b: Bus, i: nat, pc0: TaskPc, n: nat, returned0: seq<(nat, Command, bv8)>)
    requires Holds(pc0)
  {
    if n < StepsLeft(pc0)
    then
      && b.mutex == i && i < |b.tasks| && Holds(b.tasks[i]) && StepsLeft(b.tasks[i]) == StepsLeft(pc0) - n
      && CommandOf(b.tasks[i]) == CommandOf(pc0) && b.returned == returned0
    else
      && |b.returned| > |returned0| && b.returned[..|returned0|] == returned0
      && b.returned[|returned0|].0 == i && b.returned[|returned0|].1 == CommandOf(pc0)
  }

  predicate ShiftsItsBytes(pc: TaskPc) {
    pc.Shift? ==> pc.k < |CommandBytes(pc.c)|
  }

  lemma StepGoesOn(b: Bus, i: nat, x: Exchange)
    requires Enabled(b, Runs(i)) && Holds(b.tasks[i]) && ShiftsItsBytes(b.tasks[i]) && !b.tasks[i].GiveMutex?
    ensures var pc, b' := b.tasks[i], StepTask(b, i, x);
            && StepsLeft(b'.tasks[i]) == StepsLeft(pc) - 1 && Holds(b'.tasks[i])
            && CommandOf(b'.tasks[i]) == CommandOf(pc) && b'.mutex == b.mutex && b'.returned == b.returned
  {}

  lemma LastStep(b: Bus, i: nat, x: Exchange)
    requires i < |b.tasks| && b.tasks[i].GiveMutex?
    ensures var pc, b' := b.tasks[i], StepTask(b, i, x);
            b'.tasks[i].Idle? && b'.mutex == -1 && b'.returned == b.returned + [(i, pc.c, pc.r)]
  {}

  lemma OwnStep(b: Bus, i: nat, x: Exchange)
    requires Enabled(b, Runs(i)) && Holds(b.tasks[i]) && ShiftsItsBytes(b.tasks[i])
    ensures var pc, b' := b.tasks[i], StepTask(b, i, x);
            && StepsLeft(b'.tasks[i]) == StepsLeft(pc) - 1
            && (if StepsLeft(pc) > 1
                then Holds(b'.tasks[i]) && CommandOf(b'.tasks[i]) == CommandOf(pc)
                     && b'.mutex == b.mutex && b'.returned == b.returned
                else b'.tasks[i].Idle? && b'.mutex == -1 && |b'.returned| == |b.returned| + 1
                     && b'.returned[..|b.returned|] == b.returned
                     && b'.returned[|b.returned|].0 == i && b'.returned[|b.returned|].1 == CommandOf(pc))
  {
    if b.tasks[i].GiveMutex? {
      LastStep(b, i, x);
    } else {
      StepGoesOn(b, i, x);
    }
  }

  /** Others cannot move past the mutex, and returned calls stay returned. */
  lemma OthersWait(b: Bus, e: BusEvent, i: nat)
    requires Enabled(b, e) && Exclusive(b)
    ensures b.returned <= Step(b, e).returned
    ensures b.mutex == i && e != Runs(i) ==>
              Step(b, e).mutex == i && Step(b, e).tasks[i] == b.tasks[i] && Step(b, e).returned == b.returned
  {}

  lemma StepProgresses(b: Bus, e: BusEvent, i: nat, pc0: TaskPc, n: nat, returned0: seq<(nat, Command, bv8)>)
    requires Enabled(b, e) && Exclusive(b) && Bracketed(b, Holder(b))
    requires Holds(pc0) && Progressing(b, i, pc0, n, returned0)
    ensures Progressing(Step(b, e), i, pc0, if e == Runs(i) then n + 1 else n, returned0)
  {
    OthersWait(b, e, i);
    if e == Runs(i) && n < StepsLeft(pc0) {
      OwnStep(b, i, ByteExchange(b, i));
    }
  }

  lemma {:induction false} AfterConcat(b: Bus, x: seq<BusEvent>, y: seq<BusEvent>)
    ensures After(b, x + y) == After(After(b, x), y)
    decreases |y|
  {
    if y == [] {
      assert x + y == x;
    } else {
      assert (x + y)[..|x + y| - 1] == x + y[..|y| - 1];
      AfterConcat(b, x, y[..|y| - 1]);
    }
  }

  lemma {:induction false} ProgressStays(b: Bus, es0: seq<BusEvent>, es: seq<BusEvent>, i: nat)
    requires Started(b) && After(b, es0).mutex == i && i < |After(b, es0).tasks| && Holds(After(b, es0).tasks[i])
    ensures var t := After(b, es0);
            Progressing(After(t, es), i, t.tasks[i], OwnSteps(t, es, i), t.returned)
  {
    var t := After(b, es0);
    InterleavedCommandsAreAtomic(b, es0);
    if es != [] {
      var before, e := es[..|es| - 1], es[|es| - 1];
      ProgressStays(b, es0, before, i);
      AfterConcat(b, es0, before);
      InterleavedCommandsAreAtomic(b, es0 + before);
      if Enabled(After(t, before), e) {
        StepProgresses(After(t, before), e, i, t.tasks[i], OwnSteps(t, before, i), t.returned);
      }
    }
  }

  /** From every state of every run, whatever the others do: the task that holds the mutex
      has no more than nine steps of its own to make.  Until it has made them it keeps the
      mutex; with the last one its call is the next to have returned. */
  lemma HolderReturns(b: Bus, es0: seq<BusEvent>, es: seq<BusEvent>)
    requires Started(b) && After(b, es0).mutex != -1
    ensures var t := After(b, es0);
            var i, u := t.mutex, After(t, es);
            && 0 <= i < |t.tasks| && !t.tasks[i].Idle? && StepsLeft(t.tasks[i]) <= 9
            && (OwnSteps(t, es, i) < StepsLeft(t.tasks[i]) ==> u.mutex == i && u.returned == t.returned)
            && (OwnSteps(t, es, i) >= StepsLeft(t.tasks[i]) ==>
                  && |u.returned| > |t.returned| && u.returned[..|t.returned|] == t.returned
                  && u.returned[|t.returned|].0 == i && u.returned[|t.returned|].1 == CommandOf(t.tasks[i]))
  {
    InterleavedCommandsAreAtomic(b, es0);
    ProgressStays(b, es0, es, After(b, es0).mutex);
  }

  // ----- Every call can return

  predicate Orderly(b: Bus) {
    Exclusive(b) && Bracketed(b, Holder(b))
  }

  /** Task i has returned last, and the bus is free. */
  predicate JustReturned(b: Bus, i: nat, c: Command) {
    && i < |b.tasks| && b.tasks[i].Idle? && b.mutex == -1
    && |b.returned| > 0 && b.returned[|b.returned| - 1].0 == i && b.returned[|b.returned| - 1].1 == c
  }

  lemma AfterOne(b: Bus, e: BusEvent)
    requires Enabled(b, e)
    ensures After(b, [e]) == Step(b, e)
  {
    assert [e][..0] == [];
  }

  /** The holder alone, to its return. */
  lemma {:induction false} HolderRunsOut(b: Bus, i: nat) returns (es: seq<BusEvent>)
    requires Orderly(b) && b.mutex == i
    ensures var t := After(b, es);
            Orderly(t) && JustReturned(t, i, CommandOf(b.tasks[i])) && t.tasks == b.tasks[i := Idle]
    decreases StepsLeft(b.tasks[i])
  {
    var b' := Step(b, Runs(i));
    OwnStep(b, i, ByteExchange(b, i));
    OnlyOwnPlace(b, i);
    RunKeepsBracketed(b, i);
    AfterOne(b, Runs(i));
    es := [Runs(i)];
    if StepsLeft(b.tasks[i]) > 1 {
      var rest := HolderRunsOut(b', i);
      AfterConcat(b, es, rest);
      es := es + rest;
    }
  }

  lemma OnlyOwnPlace(b: Bus, i: nat)
    requires Enabled(b, Runs(i))
    ensures |Step(b, Runs(i)).tasks| == |b.tasks|
    ensures Step(b, Runs(i)).tasks == b.tasks[i := Step(b, Runs(i)).tasks[i]]
  {}

  /** From every state of every run a call that has started can return. */
  lemma EveryCallCanReturn(b: Bus, es0: seq<BusEvent>, i: nat) returns (es: seq<BusEvent>)
    requires Started(b) && i < |After(b, es0).tasks| && !After(b, es0).tasks[i].Idle?
    ensures JustReturned(After(b, es0 + es), i, CommandOf(After(b, es0).tasks[i]))
  {
    var t := After(b, es0);
    InterleavedCommandsAreAtomic(b, es0);
    if t.mutex == i {
      es := HolderRunsOut(t, i);
    } else {
      es := WaiterReturns(t, i);
    }
    AfterConcat(b, es0, es);
  }

  lemma WaiterReturns(b: Bus, i: nat) returns (es: seq<BusEvent>)
    requires Orderly(b) && i < |b.tasks| && !b.tasks[i].Idle? && b.mutex != i
    ensures JustReturned(After(b, es), i, CommandOf(b.tasks[i]))
  {
    es := [];
    if b.mutex != -1 {
      es := HolderRunsOut(b, b.mutex);
    }
    var free := After(b, es);
    var taken := Step(free, Runs(i));
    AfterOne(free, Runs(i));
    RunKeepsBracketed(free, i);
    var rest := HolderRunsOut(taken, i);
    AfterConcat(free, [Runs(i)], rest);
    AfterConcat(b, es, [Runs(i)] + rest);
    es := es + ([Runs(i)] + rest);
  }
}
