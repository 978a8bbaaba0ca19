/**
  The queues as one thread runs them: the bounded ring, the linked queue with its node pool,
  and `TU_FiniteOverflowQueue`, which pushes on the second what does not fit the first.  The
  interleavings of the two parts are the subject of `BoundedRing` and `LinkedQueue`.

  Compare-exchanges may fail spuriously: the n-th one of a call fails if `fails` says so.
 */
module SequentialQueues {
  import opened Common
  import opened RingIndex

  predicate Fails(fails: seq<bool>, n: nat) { n < |fails| && fails[n] }

  function ToGo(fails: seq<bool>, n: nat): nat { if n < |fails| then |fails| - n else 0 }

  // ----- the bounded ring -------------------------------------------------------------------

  /** Stamps of full cells are one past their ticket, those of free cells are their next ticket. */
  ghost predicate Stamped(stamps: seq<nat>, head: nat, tail: nat) {
    && ValidSize(|stamps|) && |stamps| >= 2 && head <= tail <= head + |stamps|
    && forall i: nat :: head <= i < head + |stamps| ==> stamps[Slot(i, |stamps|)] == if i < tail then i + 1 else i
  }

  lemma StampedBounds(stamps: seq<nat>, head: nat, tail: nat)
    requires Stamped(stamps, head, tail)
    ensures ValidSize(|stamps|) && |stamps| >= 2 && head <= tail <= head + |stamps|
  {
  }

  lemma SlotsDiffer(i: nat, j: nat, size: nat)
    requires ValidSize(size) && i < j < i + size
    ensures Slot(i, size) != Slot(j, size)
  {
    if Slot(i, size) == Slot(j, size) { SameSlot(i, j, size); }
  }

  lemma PushStamps(stamps: seq<nat>, head: nat, tail: nat)
    requires Stamped(stamps, head, tail)
    ensures tail < head + |stamps| ==>
      stamps[Slot(tail, |stamps|)] == tail && Stamped(stamps[Slot(tail, |stamps|) := tail + 1], head, tail + 1)
    ensures tail == head + |stamps| ==> stamps[Slot(tail, |stamps|)] == head + 1
  {
    var size := |stamps|;
    if tail == head + size {
      NextLap(head, size);
    } else {
      forall i: nat | head <= i < head + size && i != tail ensures Slot(i, size) != Slot(tail, size) {
        if i < tail { SlotsDiffer(i, tail, size); } else { SlotsDiffer(tail, i, size); }
      }
    }
  }

  lemma PopStamps(stamps: seq<nat>, head: nat, tail: nat)
    requires Stamped(stamps, head, tail)
    ensures head < tail ==>
      stamps[Slot(head, |stamps|)] == head + 1 &&
      Stamped(stamps[Slot(head, |stamps|) := head + |stamps|], head + 1, tail)
    ensures head == tail ==> stamps[Slot(head, |stamps|)] == head
  {
    var size := |stamps|;
    NextLap(head, size);
    forall i: nat | head < i < head + size ensures Slot(i, size) != Slot(head, size) {
      SlotsDiffer(head, i, size);
    }
  }

  class FiniteQueue<T> {
    const size: nat
    const sequence: array<nat>
    const data: array<T>
    var head: nat
    var tail: nat

    ghost predicate Valid()
      reads this, sequence
    {
      && data as object != sequence as object && data.Length == size == sequence.Length
      && Stamped(sequence[..], head, tail)
    }

    ghost function Contents(): seq<T>
      reads this, sequence, data
      requires Valid()
    {
      Live(data[..], head, tail)
    }

    /** Every size that the compile-time check accepts; a ring of one cell is not a queue. */
    constructor (size: nat, blank: T)
      requires ValidSize(size)
      ensures this.size == size && head == tail == 0 && fresh(sequence) && fresh(data)
      ensures sequence.Length == data.Length == size
      ensures forall i: nat :: i < size ==> sequence[i] == i && data[i] == blank
      ensures Valid() <==> size >= 2
      ensures Valid() ==> Contents() == []
    {
      this.size := size;
      sequence := new nat[size](i requires 0 <= i => i);
      data := new T[size](_ => blank);
      head, tail := 0, 0;
      new;
      forall i: nat | i < size ensures Slot(i, size) == i { SmallSlot(i, size); }
    }

    /** `push`: appends unless the ring is full. */
    method Push(value: T, fails: seq<bool>) returns (ok: bool)
      requires Valid()
      modifies this`tail, sequence, data
      ensures Valid()
      ensures ok <==> |old(Contents())| < size
      ensures Contents() == if ok then old(Contents()) + [value] else old(Contents())
    {
      LiveLength(data[..], head, tail);
      hide Stamped, Live;
      StampedBounds(sequence[..], head, tail);
      PushStamps(sequence[..], head, tail);
      var t: nat := tail;
      var n := 0;
      while true
        invariant t == tail == old(tail)
        decreases ToGo(fails, n)
        modifies this`tail
      {
        var seqno := sequence[Slot(t, size)];
        var diff: int := seqno - t;
        if diff == 0 {
          if Fails(fails, n) || tail != t {
            t := tail;
            n := n + 1;
          } else {
            tail := t + 1;
            break;
          }
        } else if diff < 0 {
          return false;
        } else {
          t := tail;
        }
      }
      LiveAppends(data[..], head, t, value);
      ghost var cells, stamps: seq<nat> := data[..], sequence[..];
      data[Slot(t, size)] := value;
      sequence[Slot(t, size)] := t + 1;
      assert data[..] == cells[Slot(t, size) := value] && sequence[..] == stamps[Slot(t, size) := t + 1];
      return true;
    }

    /** `pop`: takes the oldest element unless the ring is empty. */
    method Pop(fails: seq<bool>) returns (result: Option<T>)
      requires Valid()
      modifies this`head, sequence
      ensures Valid()
      ensures result == None <==> old(Contents()) == []
      ensures result == None ==> Contents() == old(Contents())
      ensures result.Some? ==> old(Contents()) == [result.value] + Contents()
    {
      LiveLength(data[..], head, tail);
      hide Stamped, Live;
      StampedBounds(sequence[..], head, tail);
      PopStamps(sequence[..], head, tail);
      var h: nat := head;
      var n := 0;
      while true
        invariant h == head == old(head)
        decreases ToGo(fails, n)
        modifies this`head
      {
        var seqno := sequence[Slot(h, size)];
        var diff: int := seqno - (h + 1);
        if diff == 0 {
          if Fails(fails, n) || head != h {
            h := head;
            n := n + 1;
          } else {
            head := h + 1;
            break;
          }
        } else if diff < 0 {
          return None;
        } else {
          h := head;
        }
      }
      LiveDrops(data[..], h, tail);
      result := Some(data[Slot(h, size)]);
      ghost var stamps: seq<nat> := sequence[..];
      sequence[Slot(h, size)] := h + size;
      assert sequence[..] == stamps[Slot(h, size) := h + size];
    }
  }

  // ----- the linked queue ------------------------------------------------------------------------

  /** A tagged pointer: an index into the allocated nodes, 0 for null. */
  datatype Node<T> = Node(data: T, next: Ptr)

  ghost predicate Nodes<T>(heap: seq<Node<T>>, chain: seq<nat>) {
    forall i :: 0 <= i < |chain| ==> 0 < chain[i] < |heap|
  }

  /** From `chain[0]` on, each node points at the next one, and the last at null. */
  ghost predicate Chained<T>(heap: seq<Node<T>>, chain: seq<nat>) {
    && Nodes(heap, chain)
    && (forall i, j :: 0 <= i < j < |chain| ==> chain[i] != chain[j])
    && (forall i: nat {:trigger After(chain, i)} :: i < |chain| ==> heap[chain[i]].next.id == After(chain, i))
  }

  function After(chain: seq<nat>, i: nat): nat
    requires i < |chain|
  {
    if i + 1 < |chain| then chain[i + 1] else 0
  }

  ghost function DataOf<T>(heap: seq<Node<T>>, chain: seq<nat>): seq<T>
    requires Nodes(heap, chain)
  {
    seq(|chain|, i requires 0 <= i < |chain| => heap[chain[i]].data)
  }

  /** A new node behind the last one. */
  lemma LinkChains<T>(heap: seq<Node<T>>, heap': seq<Node<T>>, chain: seq<nat>, n: nat, v: T, count: nat)
    requires Chained(heap, chain) && chain != [] && n == |heap| && n > 0 && 0 < chain[|chain| - 1] < |heap|
    requires heap' == (heap + [Node(v, NULL)])[chain[|chain| - 1] := heap[chain[|chain| - 1]].(next := Ptr(n, count))]
    ensures Chained(heap', chain + [n])
    ensures DataOf(heap', chain + [n]) == DataOf(heap, chain) + [v] && |DataOf(heap, chain)| == |chain|
  {
    forall i: nat | i < |chain| + 1 ensures heap'[(chain + [n])[i]].next.id == After(chain + [n], i) {
      assert i < |chain| ==> heap[chain[i]].next.id == After(chain, i);
    }
  }

  /** Dropping the first node, whose `next` the pool overwrites. */
  lemma DropChains<T>(heap: seq<Node<T>>, chain: seq<nat>, next: Ptr)
    requires Chained(heap, chain) && chain != []
    ensures Chained(heap[chain[0] := heap[chain[0]].(next := next)], chain[1..])
    ensures DataOf(heap[chain[0] := heap[chain[0]].(next := next)], chain[1..]) == DataOf(heap, chain)[1..]
  {
    var heap' := heap[chain[0] := heap[chain[0]].(next := next)];
    assert DataOf(heap', chain[1..]) == DataOf(heap, chain)[1..];
    forall i: nat | i < |chain| - 1 ensures heap'[chain[1..][i]].next.id == After(chain[1..], i) {
      assert heap[chain[i + 1]].next.id == After(chain, i + 1);
    }
  }

  /** The chain runs from the head; the tail is its last node or the one before. */
  ghost predicate Ends(chain: seq<nat>, head: Ptr, tail: Ptr) {
    && chain != [] && head.id == chain[0]
    && head.count <= tail.count < head.count + |chain| <= tail.count + 2
    && tail.id == chain[tail.count - head.count]
  }

  lemma AtTail<T>(heap: seq<Node<T>>, chain: seq<nat>, head: Ptr, tail: Ptr)
    requires Chained(heap, chain) && Ends(chain, head, tail)
    ensures Nodes(heap, chain) && chain != [] && 0 < tail.id < |heap|
    ensures var next := heap[tail.id].next.id;
      if next == 0 then tail.id == chain[|chain| - 1] && tail.count + 1 == head.count + |chain|
      else tail.count + 2 == head.count + |chain| && Ends(chain, head, Ptr(next, tail.count + 1))
  {
    assert heap[chain[tail.count - head.count]].next.id == After(chain, tail.count - head.count);
  }

  /** One node more, and the tail left behind it or swung to it. */
  lemma Appended<T>(chain: seq<nat>, head: Ptr, tail: Ptr, n: nat, data: seq<T>, v: T)
    requires Ends(chain, head, tail) && tail.count + 1 == head.count + |chain| && |data| == |chain|
    ensures Ends(chain + [n], head, tail) && Ends(chain + [n], head, Ptr(n, tail.count + 1))
    ensures (data + [v])[1..] == data[1..] + [v]
  {
  }

  lemma AtHead<T>(heap: seq<Node<T>>, chain: seq<nat>, head: Ptr, tail: Ptr)
    requires Chained(heap, chain) && Ends(chain, head, tail)
    ensures Nodes(heap, chain) && chain != [] && 0 < head.id == chain[0] < |heap| && heap[head.id].next.id < |heap|
    ensures heap[head.id].next.id == 0 <==> |chain| == 1
    ensures head == tail <==> tail.count == head.count
    ensures |DataOf(heap, chain)| == |chain|
    ensures |chain| > 1 ==> heap[heap[head.id].next.id].data == DataOf(heap, chain)[1]
    ensures head != tail ==> Ends(chain[1..], Ptr(heap[head.id].next.id, head.count + 1), tail)
  {
    assert heap[chain[0]].next.id == After(chain, 0);
  }

  class LockFreeQueue<T> {
    var heap: seq<Node<T>>
    var head: Ptr
    var tail: Ptr
    var free: Ptr
    ghost var chain: seq<nat>

    ghost predicate Valid()
      reads this
    {
      |heap| > 0 && Chained(heap, chain) && Ends(chain, head, tail)
    }

    /** The data of the nodes after the head. */
    ghost function Contents(): seq<T>
      reads this
      requires Valid()
    {
      DataOf(heap, chain)[1..]
    }

    constructor (blank: T)
      ensures Valid() && Contents() == []
    {
      heap := [Node(blank, NULL), Node(blank, NULL)];
      head, tail, free := Ptr(1, 0), Ptr(1, 0), NULL;
      chain := [1];
    }

    /** `push`: links a new node behind the last one, however many exchanges fail. */
    method Push(value: T, fails: seq<bool>)
      requires Valid()
      modifies this
      ensures Valid() && Contents() == old(Contents()) + [value]
    {
      hide Chained, Ends, DataOf, Nodes;
      var node := |heap|;
      var n := 0;
      var t := tail;
      while true
        invariant Valid()
        decreases ToGo(fails, n), head.count + |chain| - tail.count
        modifies this`tail
      {
        t := tail;
        AtTail(heap, chain, head, tail);
        var next := heap[t.id].next;
        if next.id == 0 {
          if !Fails(fails, n) {
            n := n + 1;
            break;
          }
        } else if !Fails(fails, n) {
          tail := Ptr(next.id, t.count + 1);
        }
        n := n + 1;
      }
      AtTail(heap, chain, head, tail);
      ghost var before := heap;
      heap := heap + [Node(value, NULL)];
      heap := heap[t.id := heap[t.id].(next := Ptr(node, heap[t.id].next.count + 1))];
      LinkChains(before, heap, chain, node, value, before[t.id].next.count + 1);
      Appended(chain, head, tail, node, DataOf(before, chain), value);
      chain := chain + [node];
      if tail == t && !Fails(fails, n) {
        tail := Ptr(node, t.count + 1);
      }
    }

    /** `pop`: takes the data of the node after the head; the old head goes to the pool. */
    method Pop(fails: seq<bool>) returns (result: Option<T>)
      requires Valid()
      modifies this
      ensures Valid()
      ensures result == None <==> old(Contents()) == []
      ensures result == None ==> Contents() == old(Contents())
      ensures result.Some? ==> old(Contents()) == [result.value] + Contents()
    {
      hide Chained, Ends, DataOf, Nodes;
      var n := 0;
      var h := head;
      while true
        invariant Valid() && h == head == old(head)
        decreases ToGo(fails, n), head.count + |chain| - tail.count
        modifies this`head, this`tail
      {
        h := head;
        var t := tail;
        AtHead(heap, chain, head, tail);
        AtTail(heap, chain, head, tail);
        var next := heap[h.id].next;
        if h == t {
          if next.id == 0 {
            return None;
          }
          if !Fails(fails, n) {
            tail := Ptr(next.id, t.count + 1);
          }
        } else {
          result := Some(heap[next.id].data);
          if !Fails(fails, n) {
            head := Ptr(next.id, h.count + 1);
            n := n + 1;
            break;
          }
        }
        n := n + 1;
      }
      DropChains(heap, chain, Ptr(free.id, free.count + 1));
      ReleaseNode(h.id, fails, n);
      chain := chain[1..];
    }

    /** `release_node`: the node becomes the first of the pool. */
    method ReleaseNode(node: nat, fails: seq<bool>, attempt: nat)
      requires 0 < node < |heap|
      modifies `heap, `free
      ensures heap == old(heap)[node := old(heap)[node].(next := Ptr(old(free).id, old(free).count + 1))]
      ensures free == Ptr(node, old(free).count + 1)
    {
      var n := attempt;
      while true
        invariant free == old(free) && |heap| == |old(heap)|
        invariant heap == old(heap) || heap == old(heap)[node := old(heap)[node].(next := Ptr(free.id, free.count + 1))]
        decreases ToGo(fails, n)
      {
        var f := free;
        heap := heap[node := heap[node].(next := Ptr(f.id, f.count + 1))];
        if !Fails(fails, n) {
          free := Ptr(node, f.count + 1);
          break;
        }
        n := n + 1;
      }
    }
  }

  // ----- the composition ------------------------------------------------------------------------------

  /** What the two parts hold; elements come out of the ring first. */
  datatype Both<T> = Both(ring: seq<T>, rest: seq<T>) {
    function Order(): seq<T> { ring + rest }
  }

  function Pushed<T>(q: Both<T>, size: nat, x: T): Both<T> {
    if |q.ring| < size then q.(ring := q.ring + [x]) else q.(rest := q.rest + [x])
  }

  function Popped<T>(q: Both<T>): (Both<T>, Option<T>) {
    if q.ring != [] then (q.(ring := q.ring[1..]), Some(q.ring[0]))
    else if q.rest != [] then (q.(rest := q.rest[1..]), Some(q.rest[0]))
    else (q, None)
  }

  datatype Call<T> = CallPush(value: T) | CallPop

  function Apply<T>(q: Both<T>, size: nat, c: Call<T>): Both<T> {
    if c.CallPush? then Pushed(q, size, c.value) else Popped(q).0
  }

  function ApplyAll<T>(q: Both<T>, size: nat, calls: seq<Call<T>>): Both<T>
    decreases |calls|
  {
    if calls == [] then q else ApplyAll(Apply(q, size, calls[0]), size, calls[1..])
  }

  function Input<T>(c: Call<T>): seq<T> { if c.CallPush? then [c.value] else [] }

  function Output<T>(q: Both<T>, c: Call<T>): seq<T> {
    if c.CallPop? && Popped(q).1.Some? then [Popped(q).1.value] else []
  }

  /** The values pushed by a run, in order. */
  function Inputs<T>(calls: seq<Call<T>>): seq<T> {
    if calls == [] then [] else Input(calls[0]) + Inputs(calls[1..])
  }

  /** The values popped by a run, in order. */
  function Outputs<T>(q: Both<T>, size: nat, calls: seq<Call<T>>): seq<T>
    decreases |calls|
  {
    if calls == [] then [] else
      Output(q, calls[0]) + Outputs(Apply(q, size, calls[0]), size, calls[1..])
  }

  /** A pop answers nothing exactly when both parts are empty, and otherwise the first in order. */
  lemma PopTakesFirst<T>(q: Both<T>)
    ensures Popped(q).1 == None <==> q.Order() == []
    ensures Popped(q).1.Some? ==> q.Order() == [Popped(q).1.value] + Popped(q).0.Order()
    ensures Popped(q).1 == None ==> Popped(q).0 == q
  {
  }

  /** A push goes last in the order exactly when the overflow part is empty or the ring full. */
  predicate InOrder<T>(q: Both<T>, size: nat) { q.rest == [] || |q.ring| >= size }

  lemma PushGoesLast<T>(q: Both<T>, size: nat, x: T)
    requires x !in q.rest
    ensures Pushed(q, size, x).Order() == q.Order() + [x] <==> InOrder(q, size)
  {
    var now, want := Pushed(q, size, x).Order(), q.Order() + [x];
    if InOrder(q, size) {
      assert now == want;
    } else {
      assert now[|q.ring|] == x && want[|q.ring|] == q.rest[0];
    }
  }

  /** Nothing is lost, made up or duplicated, overflow or not. */
  lemma {:induction false} Conserves<T>(q: Both<T>, size: nat, calls: seq<Call<T>>)
    ensures multiset(Outputs(q, size, calls)) + multiset(ApplyAll(q, size, calls).Order()) ==
            multiset(q.Order()) + multiset(Inputs(calls))
    decreases |calls|
  {
    hide Apply, Output, Input, Both.Order;
    if calls == [] {
    } else {
      var q' := Apply(q, size, calls[0]);
      Conserves(q', size, calls[1..]);
      StepConserves(q, size, calls[0]);
      AddUp(Output(q, calls[0]), Outputs(q', size, calls[1..]), ApplyAll(q', size, calls[1..]).Order(),
            q'.Order(), q.Order(), Input(calls[0]), Inputs(calls[1..]));
    }
  }

  lemma AddUp<T>(out: seq<T>, outs: seq<T>, last: seq<T>, now: seq<T>, was: seq<T>, x: seq<T>, xs: seq<T>)
    requires multiset(out) + multiset(now) == multiset(was) + multiset(x)
    requires multiset(outs) + multiset(last) == multiset(now) + multiset(xs)
    ensures multiset(out + outs) + multiset(last) == multiset(was) + multiset(x + xs)
  {
    calc {
      multiset(out + outs) + multiset(last);
      multiset(out) + (multiset(outs) + multiset(last));
      (multiset(out) + multiset(now)) + multiset(xs);
      multiset(was) + multiset(x + xs);
    }
  }

  lemma StepConserves<T>(q: Both<T>, size: nat, c: Call<T>)
    ensures multiset(Output(q, c)) + multiset(Apply(q, size, c).Order()) == multiset(q.Order()) + multiset(Input(c))
  {
    if c.CallPop? {
      PopTakesFirst(q);
    }
  }

  /** Every push of the run finds the overflow part empty or the ring full. */
  predicate AllInOrder<T>(q: Both<T>, size: nat, calls: seq<Call<T>>)
    decreases |calls|
  {
    calls == [] ||
    ((calls[0].CallPush? ==> InOrder(q, size)) && AllInOrder(Apply(q, size, calls[0]), size, calls[1..]))
  }

  /** Such runs are first in, first out. */
  lemma {:induction false} FifoInOrder<T>(q: Both<T>, size: nat, calls: seq<Call<T>>)
    requires AllInOrder(q, size, calls)
    ensures Outputs(q, size, calls) + ApplyAll(q, size, calls).Order() == q.Order() + Inputs(calls)
    decreases |calls|
  {
    if calls == [] {
    } else {
      var q' := Apply(q, size, calls[0]);
      FifoInOrder(q', size, calls[1..]);
      StepInOrder(q, size, calls[0]);
      Regroup(Output(q, calls[0]), Outputs(q', size, calls[1..]), ApplyAll(q', size, calls[1..]).Order(),
              q'.Order(), q.Order(), Input(calls[0]), Inputs(calls[1..]));
    }
  }

  lemma StepInOrder<T>(q: Both<T>, size: nat, c: Call<T>)
    requires c.CallPush? ==> InOrder(q, size)
    ensures Output(q, c) + Apply(q, size, c).Order() == q.Order() + Input(c)
  {
    if c.CallPop? {
      PopTakesFirst(q);
    } else {
      assert Pushed(q, size, c.value).Order() == q.Order() + [c.value];
    }
  }

  lemma Regroup<T>(out: seq<T>, outs: seq<T>, last: seq<T>, now: seq<T>, was: seq<T>, x: seq<T>, xs: seq<T>)
    requires out + now == was + x && outs + last == now + xs
    ensures (out + outs) + last == was + (x + xs)
  {
    assert (out + outs) + last == out + (outs + last);
    assert out + (now + xs) == (out + now) + xs;
    assert (was + x) + xs == was + (x + xs);
  }

  /** `a` occurs before `b`. */
  predicate Before<T(==)>(s: seq<T>, a: T, b: T) {
    exists i, j :: 0 <= i < j < |s| && s[i] == a && s[j] == b
  }

  lemma StillBefore<T>(s: seq<T>, t: seq<T>, a: T, b: T)
    requires Before(s, a, b)
    ensures Before(t + s, a, b)
  {
    var i, j :| 0 <= i < j < |s| && s[i] == a && s[j] == b;
    assert (t + s)[|t| + i] == a && (t + s)[|t| + j] == b;
  }

  /** What one call does to two elements in the queue: they keep their order, or the first is popped. */
  lemma StepStaysBehind<T>(q: Both<T>, size: nat, c: Call<T>, a: T, b: T)
    requires Before(q.Order(), a, b)
    ensures
      var now := Apply(q, size, c).Order();
      Before(now, a, b) || (Output(q, c) == [a] && b in now)
  {
    var was, now := q.Order(), Apply(q, size, c).Order();
    var i, j :| 0 <= i < j < |was| && was[i] == a && was[j] == b;
    if c.CallPop? {
      PopTakesFirst(q);
      assert now == was[1..];
      if i > 0 {
        assert now[i - 1] == a && now[j - 1] == b;
      } else {
        assert now[j - 1] == b;
      }
    } else if |q.ring| < size {
      var i', j' := if i < |q.ring| then i else i + 1, if j < |q.ring| then j else j + 1;
      assert now[i'] == a && now[j'] == b;
    } else {
      assert now[i] == a && now[j] == b;
    }
  }

  /** Two elements in the queue come out, or stay, in their order: no later call changes it. */
  lemma {:induction false} StaysBehind<T>(q: Both<T>, size: nat, calls: seq<Call<T>>, a: T, b: T)
    requires Before(q.Order(), a, b)
    ensures Before(Outputs(q, size, calls) + ApplyAll(q, size, calls).Order(), a, b)
    decreases |calls|
  {
    if calls == [] {
      assert Outputs(q, size, calls) + q.Order() == q.Order();
    } else {
      hide Apply, Output, Both.Order;
      var out, q' := Output(q, calls[0]), Apply(q, size, calls[0]);
      var outs, last := Outputs(q', size, calls[1..]), ApplyAll(q', size, calls[1..]).Order();
      StepStaysBehind(q, size, calls[0], a, b);
      assert (out + outs) + last == out + (outs + last);
      if Before(q'.Order(), a, b) {
        StaysBehind(q', size, calls[1..], a, b);
        StillBefore(outs + last, out, a, b);
      } else {
        Conserves(q', size, calls[1..]);
        assert b in multiset(outs + last);
        FirstIsBefore(a, outs + last, b);
      }
    }
  }

  lemma FirstIsBefore<T>(a: T, s: seq<T>, b: T)
    requires b in s
    ensures Before([a] + s, a, b)
  {
    var j :| 0 <= j < |s| && s[j] == b;
    assert ([a] + s)[0] == a && ([a] + s)[j + 1] == b;
  }

  /** A push that finds room in the ring while the overflow part holds data overtakes for good. */
  lemma OvertakesForGood<T>(q: Both<T>, size: nat, calls: seq<Call<T>>)
    requires calls != [] && calls[0].CallPush? && !InOrder(q, size) && Distinct(q.Order() + Inputs(calls))
    ensures Outputs(q, size, calls) + ApplyAll(q, size, calls).Order() != q.Order() + Inputs(calls)
  {
    var x, y, q' := calls[0].value, q.rest[0], Pushed(q, size, calls[0].value);
    assert q'.Order()[|q.ring|] == x && q'.Order()[|q.ring| + 1] == y;
    assert Before(q'.Order(), x, y);
    StaysBehind(q', size, calls[1..], x, y);
    var want := q.Order() + Inputs(calls);
    assert want[|q.ring|] == y && want[|q.Order()|] == x;
    assert !Before(want, x, y);
    assert Outputs(q, size, calls) == Outputs(q', size, calls[1..]);
  }

  lemma {:induction false} FifoOnlyInOrder<T>(q: Both<T>, size: nat, calls: seq<Call<T>>)
    requires Distinct(q.Order() + Inputs(calls))
    requires Outputs(q, size, calls) + ApplyAll(q, size, calls).Order() == q.Order() + Inputs(calls)
    ensures AllInOrder(q, size, calls)
    decreases |calls|
  {
    if calls == [] {
    } else if calls[0].CallPush? && !InOrder(q, size) {
      OvertakesForGood(q, size, calls);
    } else {
      hide Apply, Output, Input, Both.Order;
      var out, q' := Output(q, calls[0]), Apply(q, size, calls[0]);
      StepInOrder(q, size, calls[0]);
      Ungroup(out, Outputs(q', size, calls[1..]), ApplyAll(q', size, calls[1..]).Order(),
              q'.Order(), q.Order(), Input(calls[0]), Inputs(calls[1..]));
      FifoOnlyInOrder(q', size, calls[1..]);
    }
  }

  lemma Ungroup<T>(out: seq<T>, outs: seq<T>, last: seq<T>, now: seq<T>, was: seq<T>, x: seq<T>, xs: seq<T>)
    requires out + now == was + x && (out + outs) + last == was + (x + xs) && Distinct(was + (x + xs))
    ensures outs + last == now + xs && Distinct(now + xs)
  {
    var all := was + (x + xs);
    assert out + (outs + last) == all;
    assert out + (now + xs) == (was + x) + xs == all;
    assert outs + last == all[|out|..];
    assert now + xs == all[|out|..];
  }

  /**
    Exactly when the composition is first in, first out: with elements that can be told apart, what
    a run pops and keeps is in the order pushed if and only if no push of the run finds room in the
    ring while the overflow part holds data.
   */
  lemma FifoExactlyInOrder<T>(q: Both<T>, size: nat, calls: seq<Call<T>>)
    requires Distinct(q.Order() + Inputs(calls))
    ensures
      Outputs(q, size, calls) + ApplyAll(q, size, calls).Order() == q.Order() + Inputs(calls) <==>
      AllInOrder(q, size, calls)
  {
    hide *;
    if AllInOrder(q, size, calls) {
      FifoInOrder(q, size, calls);
    } else if Outputs(q, size, calls) + ApplyAll(q, size, calls).Order() == q.Order() + Inputs(calls) {
      FifoOnlyInOrder(q, size, calls);
    }
  }

  /** A run in which the ring always has room at a push, starting empty, never overflows. */
  predicate AlwaysRoom<T>(q: Both<T>, size: nat, calls: seq<Call<T>>)
    decreases |calls|
  {
    calls == [] ||
    ((calls[0].CallPush? ==> |q.ring| < size) && AlwaysRoom(Apply(q, size, calls[0]), size, calls[1..]))
  }

  lemma {:induction false} FifoWithoutOverflow<T>(q: Both<T>, size: nat, calls: seq<Call<T>>)
    requires q.rest == [] && AlwaysRoom(q, size, calls)
    ensures AllInOrder(q, size, calls) && ApplyAll(q, size, calls).rest == []
    decreases |calls|
  {
    if calls == [] {
    } else {
      FifoWithoutOverflow(Apply(q, size, calls[0]), size, calls[1..]);
    }
  }

  /** After an overflow a later push can overtake: with two cells, 1 2 3 pushed, 1 popped, 4 pushed. */
  lemma OverflowReorders()
    ensures
      var calls := [CallPush(1), CallPush(2), CallPush(3), CallPop, CallPush(4), CallPop, CallPop, CallPop];
      Outputs(Both([], []), 2, calls) == [1, 2, 4, 3]
  {
    var calls := [CallPush(1), CallPush(2), CallPush(3), CallPop, CallPush(4), CallPop, CallPop, CallPop];
    assert calls[1..] == [CallPush(2), CallPush(3), CallPop, CallPush(4), CallPop, CallPop, CallPop];
    assert calls[1..][1..] == [CallPush(3), CallPop, CallPush(4), CallPop, CallPop, CallPop];
    assert calls[1..][1..][1..] == [CallPop, CallPush(4), CallPop, CallPop, CallPop];
    assert calls[1..][1..][1..][1..] == [CallPush(4), CallPop, CallPop, CallPop];
    assert calls[1..][1..][1..][1..][1..] == [CallPop, CallPop, CallPop];
  }

  class FiniteOverflowQueue<T> {
    const finiteQueue: FiniteQueue<T>
    const overflowQueue: LockFreeQueue<T>

    ghost predicate Valid()
      reads this, finiteQueue, finiteQueue.sequence, overflowQueue
    {
      finiteQueue.Valid() && overflowQueue.Valid()
    }

    ghost function Value(): Both<T>
      reads this, finiteQueue, finiteQueue.sequence, finiteQueue.data, overflowQueue
      requires Valid()
    {
      Both(finiteQueue.Contents(), overflowQueue.Contents())
    }

    constructor (size: nat, blank: T)
      requires ValidSize(size) && size >= 2
      ensures Valid() && Value() == Both([], []) && finiteQueue.size == size
      ensures fresh(finiteQueue) && fresh(finiteQueue.sequence) && fresh(finiteQueue.data) && fresh(overflowQueue)
    {
      finiteQueue := new FiniteQueue(size, blank);
      overflowQueue := new LockFreeQueue(blank);
    }

    /** `push`: into the ring, or into the overflow queue when the ring refuses. */
    method Push(value: T, fails: seq<bool>)
      requires Valid()
      modifies finiteQueue, finiteQueue.sequence, finiteQueue.data, overflowQueue
      ensures Valid() && Value() == Pushed(old(Value()), finiteQueue.size, value)
    {
      var ok := finiteQueue.Push(value, fails);
      if ok {
        return;
      }
      overflowQueue.Push(value, fails);
    }

    /** `pop`: from the ring, or from the overflow queue when the ring is empty. */
    method Pop(fails: seq<bool>) returns (result: Option<T>)
      requires Valid()
      modifies finiteQueue, finiteQueue.sequence, finiteQueue.data, overflowQueue
      ensures Valid() && (Value(), result) == Popped(old(Value()))
    {
      result := finiteQueue.Pop(fails);
      if result.Some? {
        return;
      }
      result := overflowQueue.Pop(fails);
    }
  }
}
