/**
  Indexing of the power-of-two rings.  `TU_RingBuffer`, `TU_FiniteLockFreeQueue`
  and `TU_CacheQueue` keep free-running counters and select a cell with
  `idx & (size - 1)`.  The bitwise operator is written out on naturals here, and
  proved to be the remainder exactly when the size passes the source's own
  check `(size & (size - 1)) == 0`.
 */
module RingIndex {
  import opened Common

  /** Bitwise conjunction of two naturals, least significant bit first. */
  function BitAnd(a: nat, b: nat): (r: nat)
    ensures r <= a && r <= b
  {
    if a == 0 || b == 0 then 0
    else (if a % 2 == 1 && b % 2 == 1 then 1 else 0) + 2 * BitAnd(a / 2, b / 2)
  }

  function Pow2(k: nat): (p: nat)
    ensures p >= 1
  {
    if k == 0 then 1 else 2 * Pow2(k - 1)
  }

  /** The size check of the ring constructors; zero is refused besides. */
  predicate ValidSize(size: nat)
  {
    size > 0 && BitAnd(size, size - 1) == 0
  }

  /** The cell selected by counter `idx`. */
  function Slot(idx: nat, size: nat): (j: nat)
    requires size > 0
    ensures j < size
  {
    BitAnd(idx, size - 1)
  }

  lemma {:induction false} MaskIsRemainder(a: nat, k: nat)
    ensures BitAnd(a, Pow2(k) - 1) == a % Pow2(k)
    decreases k
  {
    if k == 0 {
    } else {
      MaskIsRemainder(a / 2, k - 1);
      LongerMask(a, Pow2(k - 1));
    }
  }

  lemma LongerMask(a: nat, p: nat)
    requires p >= 1 && BitAnd(a / 2, p - 1) == (a / 2) % p
    ensures BitAnd(a, 2 * p - 1) == a % (2 * p)
  {
    AllOnes(a, p);
    HalveRemainder(a, p);
    hide BitAnd;
  }

  /** A mask of all ones keeps the lowest bit and masks the rest. */
  lemma AllOnes(a: nat, p: nat)
    requires p >= 1
    ensures BitAnd(a, 2 * p - 1) == a % 2 + 2 * BitAnd(a / 2, p - 1)
  {
    assert (2 * p - 1) / 2 == p - 1 && (2 * p - 1) % 2 == 1;
  }

  lemma HalveRemainder(a: nat, p: nat)
    requires p >= 1
    ensures a % (2 * p) == a % 2 + 2 * ((a / 2) % p)
  {
    var q, r := (a / 2) / p, (a / 2) % p;
    assert a == 2 * (p * q + r) + a % 2;
    assert a == (2 * p) * q + (2 * r + a % 2);
    DivisionIsUnique(a, 2 * p, q, 2 * r + a % 2);
  }

  lemma {:induction false} SelfAndZero(a: nat)
    requires a > 0
    ensures BitAnd(a, a) > 0
  {
    if a == 1 {
    } else {
      SelfAndZero(a / 2);
    }
  }

  /** The constructor's bit trick accepts exactly the powers of two. */
  lemma {:induction false} ValidSizeIsPow2(size: nat)
    ensures ValidSize(size) <==> exists k: nat :: size == Pow2(k)
  {
    if ValidSize(size) {
      var k := Log(size);
    }
    if k: nat :| size == Pow2(k) {
      MaskIsRemainder(size, k);
      DivisionIsUnique(size, size, 1, 0);
    }
  }

  lemma {:induction false} Log(size: nat) returns (k: nat)
    requires ValidSize(size)
    ensures size == Pow2(k)
  {
    if size == 1 {
      k := 0;
      assert Pow2(0) == 1;
    } else if size % 2 == 1 {
      assert (size - 1) / 2 == size / 2;
      SelfAndZero(size / 2);
      assert false;
    } else {
      assert (size - 1) / 2 == size / 2 - 1;
      k := Log(size / 2);
      k := k + 1;
    }
  }

  /** `idx & (size - 1)` is `idx % size` for every size the check accepts. */
  lemma SlotIsRemainder(idx: nat, size: nat)
    requires ValidSize(size)
    ensures Slot(idx, size) == idx % size
  {
    var k := Log(size);
    MaskIsRemainder(idx, k);
  }

  lemma SameRemainder(a: nat, b: nat, n: nat)
    requires n > 0 && a % n == b % n && a < b
    ensures a + n <= b
  {
    DivideBy(a, n);
    DivideBy(b, n);
    ProductGap(n, a / n, b / n);
    ProductGap(n, b / n, a / n);
  }

  /** Counters that select the same cell are at least one lap apart. */
  lemma SameSlot(a: nat, b: nat, size: nat)
    requires ValidSize(size) && Slot(a, size) == Slot(b, size) && a < b
    ensures a + size <= b
  {
    SlotIsRemainder(a, size);
    SlotIsRemainder(b, size);
    SameRemainder(a, b, size);
  }

  lemma AddLap(a: nat, n: nat)
    requires n > 0
    ensures (a + n) % n == a % n
  {
    var q := a / n;
    assert n * (q + 1) == n * q + n;
    DivisionIsUnique(a + n, n, q + 1, a % n);
  }

  /** One lap later the same cell is selected again. */
  lemma NextLap(a: nat, size: nat)
    requires ValidSize(size)
    ensures Slot(a + size, size) == Slot(a, size)
  {
    SlotIsRemainder(a, size);
    SlotIsRemainder(a + size, size);
    AddLap(a, size);
  }

  lemma SmallSlot(a: nat, size: nat)
    requires ValidSize(size) && a < size
    ensures Slot(a, size) == a
  {
    SlotIsRemainder(a, size);
    DivisionIsUnique(a, size, 0, a);
  }

  // ----- the live part of a ring ----------------------------------------------

  /** The cells from counter `head` up to counter `tail`. */
  function Live<T>(cells: seq<T>, head: nat, tail: nat): seq<T>
    requires |cells| > 0 && head <= tail
  {
    seq(tail - head, i requires 0 <= i < tail - head => cells[Slot(head + i, |cells|)])
  }

  /** Writing the cell at `tail` leaves the others alone while there is room. */
  lemma LiveAppends<T>(cells: seq<T>, head: nat, tail: nat, x: T)
    requires ValidSize(|cells|) && head <= tail < head + |cells|
    ensures Live(cells[Slot(tail, |cells|) := x], head, tail + 1) == Live(cells, head, tail) + [x]
  {
    var size := |cells|;
    var cells' := cells[Slot(tail, size) := x];
    var now, was := Live(cells', head, tail + 1), Live(cells, head, tail);
    forall i | 0 <= i < |now| ensures now[i] == (was + [x])[i] {
      if i < tail - head && Slot(head + i, size) == Slot(tail, size) {
        SameSlot(head + i, tail, size);
      }
    }
  }

  lemma LiveLength<T>(cells: seq<T>, head: nat, tail: nat)
    requires |cells| > 0 && head <= tail
    ensures |Live(cells, head, tail)| == tail - head
  {
  }

  lemma LiveDrops<T>(cells: seq<T>, head: nat, tail: nat)
    requires |cells| > 0 && head < tail
    ensures Live(cells, head, tail) == [cells[Slot(head, |cells|)]] + Live(cells, head + 1, tail)
    ensures Live(cells, head, tail) == Live(cells, head, tail - 1) + [cells[Slot(tail - 1, |cells|)]]
  {
  }
}
