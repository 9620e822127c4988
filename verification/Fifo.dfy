/** The two FIFOs between a transfer's DMA channels and the shift register, by counts.
    The shift register does not wait for room on the receive side: a byte that finds the
    receive FIFO full is lost. */
module Fifo {
  const FIFO_DEPTH := 8

  /** Bytes fetched, shifted, waiting in the receive FIFO, stored, and lost. */
  datatype Count = Count(fetched: nat, shifted: nat, waiting: nat, stored: nat, lost: nat)

  datatype Move = Fetch | Exchange | Store

  predicate Possible(c: Count, m: Move, size: nat) {
    match m
    case Fetch => c.fetched < size && c.shifted <= c.fetched < c.shifted + FIFO_DEPTH
    case Exchange => c.shifted < c.fetched
    case Store => c.waiting > 0 && c.stored < size
  }

  function Next(c: Count, m: Move, size: nat): Count
    requires Possible(c, m, size)
  {
    match m
    case Fetch => c.(fetched := c.fetched + 1)
    case Exchange =>
      if c.waiting < FIFO_DEPTH then c.(shifted := c.shifted + 1, waiting := c.waiting + 1)
      else c.(shifted := c.shifted + 1, lost := c.lost + 1)
    case Store => c.(waiting := c.waiting - 1, stored := c.stored + 1)
  }

  /** Any sequence of moves, in any order; one that is not possible does nothing. */
  function After(c: Count, ms: seq<Move>, size: nat): Count {
    if ms == [] then c
    else
      var d, m := After(c, ms[..|ms| - 1], size), ms[|ms| - 1];
      if Possible(d, m, size) then Next(d, m, size) else d
  }

  predicate Sane(c: Count, size: nat) {
    c.stored + c.waiting + c.lost == c.shifted <= c.fetched <= size && c.waiting <= FIFO_DEPTH
  }

  lemma {:induction false} AfterIsSane(c: Count, ms: seq<Move>, size: nat)
    requires Sane(c, size)
    ensures Sane(After(c, ms, size), size) && After(c, ms, size).lost >= c.lost
  {
    if ms != [] {
      AfterIsSane(c, ms[..|ms| - 1], size);
    }
  }

  lemma {:induction false} AfterConcat(c: Count, a: seq<Move>, b: seq<Move>, size: nat)
    ensures After(c, a + b, size) == After(After(c, a, size), b, size)
    decreases |b|
  {
    if b == [] {
      assert a + b == a;
    } else {
      assert (a + b)[..|a + b| - 1] == a + b[..|b| - 1];
      AfterConcat(c, a, b[..|b| - 1], size);
    }
  }

  lemma AfterOne(c: Count, m: Move, size: nat)
    requires Possible(c, m, size)
    ensures After(c, [m], size) == Next(c, m, size)
  {}

  /** The receive channel can still store its last byte. */
  ghost predicate CanFinish(c: Count, size: nat) {
    exists ms :: After(c, ms, size).stored == size
  }

  lemma {:induction false} Finishes(c: Count, size: nat) returns (ms: seq<Move>)
    requires Sane(c, size) && c.lost == 0
    ensures After(c, ms, size).stored == size
    decreases (size - c.fetched) + (size - c.shifted) + (size - c.stored)
  {
    if c.stored == size {
      ms := [];
    } else {
      var m := if c.waiting > 0 then Store else if c.shifted < c.fetched then Exchange else Fetch;
      AfterOne(c, m, size);
      var rest := Finishes(Next(c, m, size), size);
      AfterConcat(c, [m], rest, size);
      ms := [m] + rest;
    }
  }

  /** A transfer can finish if and only if no byte has been lost so far. */
  lemma LostByteIsMissed(c: Count, size: nat)
    requires Sane(c, size)
    ensures CanFinish(c, size) <==> c.lost == 0
  {
    if c.lost == 0 {
      var ms := Finishes(c, size);
    } else {
      forall ms
        ensures After(c, ms, size).stored != size
      {
        AfterIsSane(c, ms, size);
      }
    }
  }

  const START: Count := Count(0, 0, 0, 0, 0)

  /** A transfer of this size can lose a byte. */
  ghost predicate CanOverrun(size: nat) {
    exists ms :: After(START, ms, size).lost > 0
  }

  /** Before anything is stored n bytes have been fetched and shifted. */
  lemma {:induction false} NothingStored(n: nat, size: nat) returns (ms: seq<Move>)
    requires n <= size
    ensures After(START, ms, size) == if n <= FIFO_DEPTH
            then Count(n, n, n, 0, 0) else Count(n, n, FIFO_DEPTH, 0, n - FIFO_DEPTH)
  {
    ms := [];
    if n > 0 {
      ms := NothingStored(n - 1, size);
      var c := After(START, ms, size);
      AfterOne(c, Fetch, size);
      AfterOne(Next(c, Fetch, size), Exchange, size);
      AfterConcat(c, [Fetch], [Exchange], size);
      AfterConcat(START, ms, [Fetch] + [Exchange], size);
      ms := ms + ([Fetch] + [Exchange]);
    }
  }

  /** Whether a transfer can lose a byte shows in its size. */
  lemma OnlyLongTransfersOverrun(size: nat)
    ensures CanOverrun(size) <==> size > FIFO_DEPTH
  {
    if size > FIFO_DEPTH {
      var ms := NothingStored(size, size);
    } else {
      forall ms
        ensures After(START, ms, size).lost == 0
      {
        ShortLosesNothing(ms, size);
      }
    }
  }

  lemma {:induction false} ShortLosesNothing(ms: seq<Move>, size: nat)
    requires size <= FIFO_DEPTH
    ensures Sane(After(START, ms, size), size) && After(START, ms, size).lost == 0
  {
    if ms != [] {
      ShortLosesNothing(ms[..|ms| - 1], size);
    }
  }
}
