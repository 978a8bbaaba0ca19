/**
  `TU_CacheQueue`: a small private ring that is a queue when it is filled and a stack when it
  is emptied.
 */
module CacheQueues {
  import opened Common
  import opened RingIndex

  /** Caching at most `size` elements: the new one goes last, the oldest is evicted when full. */
  function Cached<T>(c: seq<T>, size: nat, x: T): (r: (seq<T>, Option<T>))
    requires 0 < size && |c| <= size
    ensures |r.0| <= size
  {
    if |c| == size then (c[1..] + [x], Some(c[0])) else (c + [x], None)
  }

  /** Caching several elements in turn: what stays, and what was evicted, in order. */
  function CachedAll<T>(c: seq<T>, size: nat, xs: seq<T>): (seq<T>, seq<T>)
    requires 0 < size && |c| <= size
    decreases |xs|
  {
    if xs == [] then (c, []) else
      var (c', out) := Cached(c, size, xs[0]);
      var (rest, outs) := CachedAll(c', size, xs[1..]);
      (rest, (if out.Some? then [out.value] else []) + outs)
  }

  /** Nothing is lost or reordered: evictions come oldest first, and the newest elements stay. */
  lemma {:induction false} EvictsOldestFirst<T>(c: seq<T>, size: nat, xs: seq<T>)
    requires 0 < size && |c| <= size
    ensures var (rest, outs) := CachedAll(c, size, xs);
      outs + rest == c + xs && |rest| == if |c| + |xs| <= size then |c| + |xs| else size
    decreases |xs|
  {
    if xs == [] {
      assert c + xs == c;
    } else {
      var (c', out) := Cached(c, size, xs[0]);
      var (rest, outs) := CachedAll(c', size, xs[1..]);
      EvictsOldestFirst(c', size, xs[1..]);
      Regroup(if out.Some? then [out.value] else [], c', outs, rest, c, xs);
    }
  }

  lemma Regroup<T>(first: seq<T>, c': seq<T>, outs: seq<T>, rest: seq<T>, c: seq<T>, xs: seq<T>)
    requires xs != [] && first + c' == c + [xs[0]] && outs + rest == c' + xs[1..]
    ensures (first + outs) + rest == c + xs
  {
    assert (first + outs) + rest == first + (outs + rest);
    assert first + (c' + xs[1..]) == (first + c') + xs[1..];
    assert (c + [xs[0]]) + xs[1..] == c + xs;
  }

  class CacheQueue<T> {
    const size: nat
    const mask: nat
    const data: array<T>
    var head: nat
    var tail: nat

    ghost predicate Valid()
      reads this
    {
      ValidSize(size) && mask == size - 1 && data.Length == size && head <= tail <= head + size
    }

    ghost function Contents(): seq<T>
      reads this, data
      requires Valid()
    {
      Live(data[..], head, tail)
    }

    constructor (size: nat, blank: T)
      requires ValidSize(size)
      ensures Valid() && fresh(data) && this.size == size && Contents() == []
    {
      this.size := size;
      mask := size - 1;
      data := new T[size](_ => blank);
      head, tail := 0, 0;
    }

    /** `cache`: the oldest element is evicted exactly when the ring is full. */
    method Cache(newValue: T) returns (popped: Option<T>)
      requires Valid()
      modifies this`head, this`tail, data
      ensures Valid() && (Contents(), popped) == Cached(old(Contents()), size, newValue)
      ensures popped == None <==> |old(Contents())| < size
      ensures old(Contents()) + [newValue] == (if popped.Some? then [popped.value] else []) + Contents()
    {
      hide Live;
      LiveLength(data[..], head, tail);
      popped := None;
      if tail - head >= size {
        LiveDrops(data[..], head, tail);
        popped := Some(data[BitAnd(head, mask)]);
        head := head + 1;
      }
      ghost var before := data[..];
      LiveAppends(before, head, tail, newValue);
      data[BitAnd(tail, mask)] := newValue;
      assert data[..] == before[Slot(tail, size) := newValue];
      tail := tail + 1;
    }

    /** `pop`: the newest element, or nothing when the ring is empty. */
    method Pop() returns (result: Option<T>)
      requires Valid()
      modifies this`tail
      ensures Valid()
      ensures result == None <==> old(Contents()) == []
      ensures result == None ==> Contents() == old(Contents())
      ensures result.Some? ==> old(Contents()) == Contents() + [result.value]
    {
      if tail <= head {
        return None;
      }
      LiveDrops(data[..], head, tail);
      tail := tail - 1;
      result := Some(data[BitAnd(tail, mask)]);
    }

    method Count() returns (n: nat)
      requires Valid()
      ensures n == |Contents()| <= size
    {
      n := tail - head;
    }
  }
}
