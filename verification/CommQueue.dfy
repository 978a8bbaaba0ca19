/**
  `TU_CommQueue`: a queue whose elements are removed from any position by their address.
  A doubly linked list of used nodes and a singly linked list of free ones share one growing
  vector; index 0 stands for the end of both.
 */
module CommQueues {
  import opened Common

  datatype Node<T> = Node(data: T, next: nat, prev: nat)

  // ----- lists inside the memory ----------------------------------------------------------

  /** `l` holds indices of nodes, never 0. */
  ghost predicate Inside(l: seq<nat>, top: nat) {
    forall i :: 0 <= i < |l| ==> 0 < l[i] < top
  }

  function NextIn(l: seq<nat>, i: nat): nat
    requires i < |l|
  {
    if i + 1 < |l| then l[i + 1] else 0
  }

  /** The nodes of `l` are linked in order and the last one ends the list. */
  ghost predicate Linked<T>(memory: seq<Node<T>>, l: seq<nat>, head: nat) {
    && Inside(l, |memory|)
    && head == (if l == [] then 0 else l[0])
    && forall i: nat {:trigger NextIn(l, i)} :: i < |l| ==> memory[l[i]].next == NextIn(l, i)
  }

  function PrevIn(l: seq<nat>, i: nat): nat
    requires i < |l|
  {
    if i == 0 then l[|l| - 1] else l[i - 1]
  }

  /** Each node knows its predecessor; the first one knows the last. */
  ghost predicate BackLinked<T>(memory: seq<Node<T>>, l: seq<nat>) {
    && Inside(l, |memory|)
    && forall i: nat {:trigger PrevIn(l, i)} :: i < |l| ==> memory[l[i]].prev == PrevIn(l, i)
  }

  /** The two lists share out the indices from 1 to `top` - 1. */
  ghost predicate SharedOut(used: seq<nat>, free: seq<nat>, top: nat) {
    && Distinct(used) && Distinct(free)
    && (forall x :: x in used ==> x !in free)
    && (forall x: nat :: 0 < x < top <==> x in used || x in free)
  }

  ghost predicate Shape<T>(memory: seq<Node<T>>, used: seq<nat>, free: seq<nat>, usedList: nat, freeList: nat) {
    && |memory| > 0
    && SharedOut(used, free, |memory|)
    && Linked(memory, used, usedList) && BackLinked(memory, used)
    && Linked(memory, free, freeList)
  }

  function Without(l: seq<nat>, k: nat): seq<nat>
    requires k < |l|
  {
    l[..k] + l[k + 1..]
  }

  // ----- what the queue holds ------------------------------------------------------------------

  /** An element and its address. */
  datatype Entry<T> = Entry(address: nat, value: T)

  function EntriesOf<T>(memory: seq<Node<T>>, used: seq<nat>): seq<Entry<T>>
    requires Inside(used, |memory|)
  {
    seq(|used|, i requires 0 <= i < |used| => Entry(used[i], memory[used[i]].data))
  }

  lemma AddressesOf<T>(memory: seq<Node<T>>, used: seq<nat>)
    requires Inside(used, |memory|)
    ensures forall e :: e in EntriesOf(memory, used) ==> e.address in used
  {
  }

  /** Counting up: the free list of an empty queue. */
  function UpTo(top: nat): (l: seq<nat>)
    requires top > 0
    ensures |l| == top - 1 && forall i :: 0 <= i < |l| ==> l[i] == i + 1
  {
    seq(top - 1, i requires 0 <= i => i + 1)
  }

  lemma UpToIsLinked<T>(m: seq<Node<T>>)
    requires |m| > 0 && forall j :: 1 <= j < |m| ==> m[j].next == if j < |m| - 1 then j + 1 else 0
    ensures Shape(m, [], UpTo(|m|), 0, if |m| > 1 then 1 else 0)
  {
    forall x: nat | 0 < x < |m| ensures x in UpTo(|m|) {
      assert UpTo(|m|)[x - 1] == x;
    }
  }

  // ----- one step on the lists --------------------------------------------------------------------

  function Rest(l: seq<nat>): seq<nat> { if l == [] then [] else l[1..] }

  lemma RestOf(l: seq<nat>)
    requires Distinct(l)
    ensures Distinct(Rest(l))
    ensures forall x :: x in Rest(l) <==> x in l && x != l[0]
  {
    if l != [] { assert l == [l[0]] + l[1..]; }
  }

  lemma WithoutOf(l: seq<nat>, k: nat)
    requires Distinct(l) && k < |l|
    ensures Distinct(Without(l, k))
    ensures forall x :: x in Without(l, k) <==> x in l && x != l[k]
  {
    assert l == l[..k] + [l[k]] + l[k + 1..];
  }

  /** The node that `add` takes: the one freed last, or a new one. */
  function Taken(free: seq<nat>, top: nat): nat { if free == [] then top else free[0] }

  lemma AppendShared(used: seq<nat>, free: seq<nat>, top: nat)
    requires SharedOut(used, free, top) && top > 0
    ensures Taken(free, top) > 0 && Taken(free, top) !in used && Distinct(used)
    ensures SharedOut(used + [Taken(free, top)], Rest(free), if free == [] then top + 1 else top)
  {
    var x := Taken(free, top);
    RestOf(free);
    assert free != [] ==> x in free;
    assert x !in used;
    assert forall y :: y in used + [x] <==> y in used || y == x;
  }

  lemma RemoveShared(used: seq<nat>, free: seq<nat>, top: nat, k: nat)
    requires SharedOut(used, free, top) && k < |used|
    ensures SharedOut(Without(used, k), [used[k]] + free, top) && Distinct(used)
  {
    WithoutOf(used, k);
    assert used[k] in used;
    assert forall y :: y in [used[k]] + free <==> y in free || y == used[k];
  }

  /** `m'` is `m` with node `x` appended to the list `used`. */
  ghost predicate Appended<T>(m: seq<Node<T>>, m': seq<Node<T>>, used: seq<nat>, x: nat, data: T) {
    && |m| <= |m'| && x < |m'|
    && m'[x] == Node(data, 0, if used == [] then x else used[|used| - 1])
    && forall y: nat :: y < |m| && y != x ==>
         m'[y] == Node(m[y].data, if used != [] && y == used[|used| - 1] then x else m[y].next,
                       if used != [] && y == used[0] then x else m[y].prev)
  }

  lemma AppendLink<T>(m: seq<Node<T>>, m': seq<Node<T>>, used: seq<nat>, head: nat, x: nat, data: T, i: nat)
    requires Linked(m, used, head) && Distinct(used) && i <= |used|
    requires Appended(m, m', used, x, data) && x !in used && x > 0
    ensures var l := used + [x]; m'[l[i]].next == NextIn(l, i)
  {
    if i < |used| {
      assert m[used[i]].next == NextIn(used, i);
    }
  }

  lemma AppendBackLink<T>(m: seq<Node<T>>, m': seq<Node<T>>, used: seq<nat>, x: nat, data: T, i: nat)
    requires BackLinked(m, used) && Distinct(used) && i <= |used|
    requires Appended(m, m', used, x, data) && x !in used && x > 0
    ensures var l := used + [x]; m'[l[i]].prev == PrevIn(l, i)
  {
    if i < |used| {
      assert m[used[i]].prev == PrevIn(used, i);
    }
  }

  lemma AppendLinks<T>(m: seq<Node<T>>, m': seq<Node<T>>, used: seq<nat>, head: nat, x: nat, data: T)
    requires Linked(m, used, head) && BackLinked(m, used) && Distinct(used)
    requires Appended(m, m', used, x, data) && x !in used && x > 0
    ensures Linked(m', used + [x], if used == [] then x else head) && BackLinked(m', used + [x])
    ensures EntriesOf(m', used + [x]) == EntriesOf(m, used) + [Entry(x, data)]
  {
    var l := used + [x];
    forall i: nat | i < |l| ensures m'[l[i]].next == NextIn(l, i) {
      AppendLink(m, m', used, head, x, data, i);
    }
    forall i: nat | i < |l| ensures m'[l[i]].prev == PrevIn(l, i) {
      AppendBackLink(m, m', used, x, data, i);
    }
    hide Distinct, NextIn, PrevIn;
  }

  lemma AppendKeepsFree<T>(m: seq<Node<T>>, m': seq<Node<T>>, used: seq<nat>, free: seq<nat>, head: nat, data: T)
    requires Linked(m, free, head) && SharedOut(used, free, |m|) && Inside(used, |m|)
    requires Appended(m, m', used, Taken(free, |m|), data)
    ensures Linked(m', Rest(free), if free == [] then 0 else m[free[0]].next)
  {
    assert free != [] ==> m[free[0]].next == NextIn(free, 0);
    forall i: nat | i < |Rest(free)| ensures m'[Rest(free)[i]].next == NextIn(Rest(free), i) {
      assert m[free[i + 1]].next == NextIn(free, i + 1);
      assert free[i + 1] in free && free[i + 1] !in used;
    }
  }

  /** `m'` is `m` with the `k`-th node of `used` unlinked and made the head of the free list. */
  ghost predicate Unlinked<T>(m: seq<Node<T>>, m': seq<Node<T>>, used: seq<nat>, k: nat, freeList: nat, blank: T)
    requires k < |used|
  {
    && |m'| == |m| && used[k] < |m|
    && m'[used[k]] == Node(blank, freeList, 0)
    && forall y: nat :: y < |m| && y != used[k] ==>
         m'[y] == Node(m[y].data, if k > 0 && y == used[k - 1] then NextIn(used, k) else m[y].next,
                       if (if k + 1 < |used| then y == used[k + 1] else y == used[0]) then PrevIn(used, k)
                       else m[y].prev)
  }

  lemma UnlinkAt<T>(m: seq<Node<T>>, m': seq<Node<T>>, used: seq<nat>, head: nat, k: nat, freeList: nat, blank: T,
                    i: nat)
    requires Linked(m, used, head) && BackLinked(m, used) && Distinct(used)
    requires k < |used| && Unlinked(m, m', used, k, freeList, blank)
    requires i < |used| - 1
    ensures var j := if i < k then i else i + 1;
      Without(used, k)[i] == used[j] && m'[used[j]].data == m[used[j]].data
    ensures var x := Without(used, k)[i];
      m'[x].next == NextIn(Without(used, k), i) && m'[x].prev == PrevIn(Without(used, k), i)
  {
    var j := if i < k then i else i + 1;
    assert used[j] != used[k];
    assert m[used[j]].next == NextIn(used, j) && m[used[j]].prev == PrevIn(used, j);
    assert k > 0 ==> (used[j] == used[k - 1] <==> j == k - 1);
    assert k + 1 < |used| ==> (used[j] == used[k + 1] <==> j == k + 1);
    assert used[j] == used[0] <==> j == 0;
    hide Linked, BackLinked, Distinct;
  }

  lemma UnlinkLinks<T>(m: seq<Node<T>>, m': seq<Node<T>>, used: seq<nat>, head: nat, k: nat, freeList: nat, blank: T)
    requires Linked(m, used, head) && BackLinked(m, used) && Distinct(used)
    requires k < |used| && Unlinked(m, m', used, k, freeList, blank) && |m'| == |m|
    ensures Linked(m', Without(used, k), if k == 0 then NextIn(used, k) else head)
    ensures BackLinked(m', Without(used, k))
  {
    hide Distinct, Unlinked;
    forall i: nat | i < |used| - 1
      ensures var x := Without(used, k)[i];
        m'[x].next == NextIn(Without(used, k), i) && m'[x].prev == PrevIn(Without(used, k), i)
    {
      UnlinkAt(m, m', used, head, k, freeList, blank, i);
    }
  }

  lemma UnlinkEntries<T>(m: seq<Node<T>>, m': seq<Node<T>>, used: seq<nat>, head: nat, k: nat, freeList: nat, blank: T)
    requires Linked(m, used, head) && BackLinked(m, used) && Distinct(used)
    requires k < |used| && Unlinked(m, m', used, k, freeList, blank) && |m'| == |m|
    ensures EntriesOf(m', Without(used, k)) == EntriesOf(m, used)[..k] + EntriesOf(m, used)[k + 1..]
  {
    hide Distinct, Unlinked;
    forall i: nat | i < |used| - 1
      ensures Without(used, k)[i] == used[if i < k then i else i + 1]
      ensures var x := Without(used, k)[i]; m'[x].data == m[x].data
    {
      UnlinkAt(m, m', used, head, k, freeList, blank, i);
    }
  }

  lemma UnlinkKeepsFree<T>(m: seq<Node<T>>, m': seq<Node<T>>, used: seq<nat>, free: seq<nat>, k: nat, head: nat,
                           blank: T)
    requires Linked(m, free, head) && SharedOut(used, free, |m|) && Inside(used, |m|)
    requires k < |used| && Unlinked(m, m', used, k, head, blank)
    ensures Linked(m', [used[k]] + free, used[k])
  {
    var l := [used[k]] + free;
    forall i: nat | i < |l| ensures m'[l[i]].next == NextIn(l, i) {
      if i > 0 {
        assert m[free[i - 1]].next == NextIn(free, i - 1);
        assert free[i - 1] in free && free[i - 1] !in used;
      }
    }
  }

  /** What the code of `add` relies on. */
  lemma BeforeAppend<T>(m: seq<Node<T>>, used: seq<nat>, free: seq<nat>, usedList: nat, freeList: nat)
    requires Shape(m, used, free, usedList, freeList)
    ensures freeList == (if free == [] then 0 else free[0]) && Taken(free, |m|) !in used
    ensures usedList == if used == [] then 0 else used[0]
    ensures freeList < |m| && 0 < Taken(free, |m|) && Inside(used, |m|)
    ensures used != [] ==> 0 < used[0] < |m| && 0 < used[|used| - 1] < |m| && m[used[0]].prev == used[|used| - 1]
    ensures forall e :: e in EntriesOf(m, used) ==> e.address != Taken(free, |m|)
  {
    AppendShared(used, free, |m|);
    AddressesOf(m, used);
    assert used != [] ==> m[used[0]].prev == PrevIn(used, 0);
  }

  lemma AppendShape<T>(m: seq<Node<T>>, m': seq<Node<T>>, used: seq<nat>, free: seq<nat>, usedList: nat, freeList: nat,
                       data: T)
    requires Shape(m, used, free, usedList, freeList)
    requires Appended(m, m', used, Taken(free, |m|), data) && |m'| == if free == [] then |m| + 1 else |m|
    ensures Shape(m', used + [Taken(free, |m|)], Rest(free), if used == [] then Taken(free, |m|) else usedList,
                  if free == [] then 0 else m[free[0]].next)
    ensures EntriesOf(m', used + [Taken(free, |m|)]) == EntriesOf(m, used) + [Entry(Taken(free, |m|), data)]
  {
    AppendShared(used, free, |m|);
    AppendLinks(m, m', used, usedList, Taken(free, |m|), data);
    AppendKeepsFree(m, m', used, free, freeList, data);
    hide SharedOut, Linked, BackLinked, EntriesOf, Distinct, Appended;
  }

  /** The effect of the code of `add` on the memory, in the code's own terms. */
  ghost predicate LinkedBy<T>(m: seq<Node<T>>, m': seq<Node<T>>, idx: nat, usedList: nat, data: T)
    requires idx < |m| && usedList < |m|
  {
    && |m'| == |m|
    && m'[idx] == Node(data, 0, if usedList == 0 then idx else m[usedList].prev)
    && forall y: nat :: y < |m| && y != idx ==>
         m'[y] == Node(m[y].data, if usedList != 0 && y == m[usedList].prev then idx else m[y].next,
                       if usedList != 0 && y == usedList then idx else m[y].prev)
  }

  lemma LinkedAt<T>(m: seq<Node<T>>, was: seq<Node<T>>, m': seq<Node<T>>, used: seq<nat>, free: seq<nat>, usedList: nat,
                    freeList: nat, data: T)
    requires Shape(m, used, free, usedList, freeList)
    requires |was| == (if free == [] then |m| + 1 else |m|) && was[..|m|] == m
    requires Taken(free, |m|) < |was| && usedList < |was| && LinkedBy(was, m', Taken(free, |m|), usedList, data)
    ensures Appended(m, m', used, Taken(free, |m|), data) && |m'| == |was|
  {
    assert used != [] ==> m[used[0]].prev == PrevIn(used, 0);
    assert forall y: nat :: y < |m| ==> was[y] == was[..|m|][y];
  }

  /** What the code of `remove` relies on. */
  lemma BeforeUnlink<T>(m: seq<Node<T>>, used: seq<nat>, free: seq<nat>, usedList: nat, freeList: nat, k: nat)
    requires Shape(m, used, free, usedList, freeList) && k < |used|
    ensures Inside(used, |m|) && 0 < used[k] < |m| && 0 < usedList < |m|
    ensures m[used[k]].next == NextIn(used, k) < |m| && 0 < m[used[k]].prev < |m|
  {
    assert m[used[k]].next == NextIn(used, k) && m[used[k]].prev == PrevIn(used, k);
  }

  /** The effect of the code of `remove` on the memory, in the code's own terms. */
  ghost predicate UnlinkedBy<T>(m: seq<Node<T>>, m': seq<Node<T>>, idx: nat, usedList: nat, freeList: nat, blank: T)
    requires idx < |m|
  {
    && |m'| == |m|
    && m'[idx] == Node(blank, freeList, 0)
    && var node := m[idx];
    forall y: nat :: y < |m| && y != idx ==>
      m'[y] == Node(m[y].data, if idx != usedList && y == node.prev then node.next else m[y].next,
                    if y == (if node.next != 0 then node.next else usedList) then node.prev else m[y].prev)
  }

  lemma UnlinkedAt<T>(m: seq<Node<T>>, m': seq<Node<T>>, used: seq<nat>, free: seq<nat>, usedList: nat, freeList: nat,
                      k: nat, blank: T)
    requires Shape(m, used, free, usedList, freeList) && k < |used| && used[k] < |m|
    requires UnlinkedBy(m, m', used[k], usedList, freeList, blank)
    ensures Unlinked(m, m', used, k, freeList, blank)
    ensures k == 0 <==> used[k] == usedList
  {
    assert m[used[k]].next == NextIn(used, k) && m[used[k]].prev == PrevIn(used, k);
    hide SharedOut, Linked, BackLinked;
  }

  lemma UnlinkShape<T>(m: seq<Node<T>>, m': seq<Node<T>>, used: seq<nat>, free: seq<nat>, usedList: nat, freeList: nat,
                       k: nat, blank: T)
    requires Shape(m, used, free, usedList, freeList)
    requires k < |used| && used[k] < |m| && UnlinkedBy(m, m', used[k], usedList, freeList, blank)
    ensures Shape(m', Without(used, k), [used[k]] + free, if used[k] == usedList then NextIn(used, k) else usedList,
                  used[k])
    ensures EntriesOf(m', Without(used, k)) == EntriesOf(m, used)[..k] + EntriesOf(m, used)[k + 1..]
  {
    hide Unlinked, EntriesOf, Distinct;
    UnlinkedAt(m, m', used, free, usedList, freeList, k, blank);
    RemoveShared(used, free, |m|, k);
    UnlinkLinks(m, m', used, usedList, k, freeList, blank);
    UnlinkEntries(m, m', used, usedList, k, freeList, blank);
    UnlinkKeepsFree(m, m', used, free, k, freeList, blank);
  }

  /** One element, that at address `idx`, is gone; `next` is the address of the one after it, 0 at the end. */
  ghost predicate TakesOut<T>(before: seq<Entry<T>>, after: seq<Entry<T>>, idx: nat, next: nat) {
    && (forall e :: e in after ==> e.address != idx)
    && exists k: nat ::
         && k < |before| && before[k].address == idx && after == before[..k] + before[k + 1..]
         && next == if k + 1 < |before| then before[k + 1].address else 0
  }

  lemma TakenOut<T>(m: seq<Node<T>>, m': seq<Node<T>>, used: seq<nat>, free: seq<nat>, usedList: nat, freeList: nat,
                    usedList': nat, k: nat, blank: T)
    requires Shape(m, used, free, usedList, freeList) && k < |used|
    requires Shape(m', Without(used, k), [used[k]] + free, usedList', used[k])
    requires EntriesOf(m', Without(used, k)) == EntriesOf(m, used)[..k] + EntriesOf(m, used)[k + 1..]
    ensures TakesOut(EntriesOf(m, used), EntriesOf(m', Without(used, k)), used[k], NextIn(used, k))
  {
    assert EntriesOf(m, used)[k].address == used[k];
    assert ([used[k]] + free)[0] == used[k];
    AddressesOf(m', Without(used, k));
    hide Linked, BackLinked, Without;
  }

  // ----- the queue as a value -----------------------------------------------------------------------

  /** The elements in order, the free addresses in the order they are handed out, and the next new address. */
  datatype Store<T> = Store(entries: seq<Entry<T>>, free: seq<nat>, top: nat) {
    function Addresses(): (l: seq<nat>)
      ensures |l| == |entries| && forall i :: 0 <= i < |l| ==> l[i] == entries[i].address
    {
      seq(|entries|, i requires 0 <= i < |entries| => entries[i].address)
    }

    ghost predicate WellFormed() { top > 0 && SharedOut(Addresses(), free, top) }
  }

  datatype Op<T> = Push(value: T) | Drop(address: nat) | Reset

  /** The first position of `x`, or the length when there is none. */
  function IndexOf(l: seq<nat>, x: nat): (k: nat)
    ensures k <= |l| && (x in l <==> k < |l|) && (k < |l| ==> l[k] == x)
  {
    if l == [] || l[0] == x then 0 else 1 + IndexOf(l[1..], x)
  }

  function Apply<T>(q: Store<T>, op: Op<T>): Store<T>
    requires q.top > 0
  {
    match op
    case Push(v) =>
      var top := if q.free == [] then q.top + 1 else q.top;
      Store(q.entries + [Entry(Taken(q.free, q.top), v)], Rest(q.free), top)
    case Drop(x) =>
      var k := IndexOf(q.Addresses(), x);
      if k == |q.entries| then q else q.(entries := q.entries[..k] + q.entries[k + 1..], free := [x] + q.free)
    case Reset =>
      Store([], UpTo(q.top), q.top)
  }

  function ApplyAll<T>(q: Store<T>, ops: seq<Op<T>>): (r: Store<T>)
    requires q.top > 0
    ensures r.top > 0
    decreases |ops|
  {
    if ops == [] then q else ApplyAll(Apply(q, ops[0]), ops[1..])
  }

  /** The addresses that the pushes of a run hand out. */
  function HandedOut<T>(q: Store<T>, ops: seq<Op<T>>): seq<nat>
    requires q.top > 0
    decreases |ops|
  {
    if ops == [] then [] else
      (if ops[0].Push? then [Taken(q.free, q.top)] else []) + HandedOut(Apply(q, ops[0]), ops[1..])
  }

  lemma UpToHas(top: nat)
    requires top > 0
    ensures SharedOut([], UpTo(top), top)
  {
    forall x: nat | 0 < x < top ensures x in UpTo(top) {
      assert UpTo(top)[x - 1] == x;
    }
  }

  lemma ApplyKeepsForm<T>(q: Store<T>, op: Op<T>)
    requires q.WellFormed()
    ensures Apply(q, op).WellFormed()
  {
    match op {
      case Push(v) =>
        AppendShared(q.Addresses(), q.free, q.top);
        assert Apply(q, op).Addresses() == q.Addresses() + [Taken(q.free, q.top)];
      case Drop(x) =>
        var k := IndexOf(q.Addresses(), x);
        if k < |q.entries| {
          RemoveShared(q.Addresses(), q.free, q.top, k);
          assert Apply(q, op).Addresses() == Without(q.Addresses(), k);
        }
      case Reset =>
        UpToHas(q.top);
        assert Apply(q, op).Addresses() == [];
    }
  }

  /**
    Stable addresses: through any run that drops other elements only, an address keeps denoting
    its value, and no push hands it out again.
   */
  lemma {:induction false} StableAddress<T>(q: Store<T>, ops: seq<Op<T>>, e: Entry<T>)
    requires q.WellFormed() && e in q.entries
    requires forall op :: op in ops ==> op != Drop(e.address) && op != Reset
    ensures e in ApplyAll(q, ops).entries && e.address !in HandedOut(q, ops)
    decreases |ops|
  {
    if ops == [] {
    } else {
      assert ops[0] in ops && forall op :: op in ops[1..] ==> op in ops;
      StepKeepsEntry(q, ops[0], e);
      ApplyKeepsForm(q, ops[0]);
      StableAddress(Apply(q, ops[0]), ops[1..], e);
    }
  }

  lemma StepKeepsEntry<T>(q: Store<T>, op: Op<T>, e: Entry<T>)
    requires q.WellFormed() && e in q.entries && op != Drop(e.address) && op != Reset
    ensures e in Apply(q, op).entries
    ensures op.Push? ==> Taken(q.free, q.top) != e.address
  {
    var i :| 0 <= i < |q.entries| && q.entries[i] == e;
    assert q.Addresses()[i] == e.address;
    if op.Push? {
      AppendShared(q.Addresses(), q.free, q.top);
    } else {
      var k := IndexOf(q.Addresses(), op.address);
      if k < |q.entries| {
        assert q.Addresses()[k] == op.address;
        assert q.entries == q.entries[..k] + [q.entries[k]] + q.entries[k + 1..];
      }
    }
  }

  /** An address denotes one element only. */
  lemma OneElementPerAddress<T>(q: Store<T>, e: Entry<T>, e': Entry<T>)
    requires q.WellFormed() && e in q.entries && e' in q.entries && e.address == e'.address
    ensures e == e'
  {
    var i :| 0 <= i < |q.entries| && q.entries[i] == e;
    var j :| 0 <= j < |q.entries| && q.entries[j] == e';
    assert q.Addresses()[i] == q.Addresses()[j];
  }

  /** A drop takes its one element out, and nothing else changes but the free list; an unknown address is ignored. */
  lemma DropTakesOut<T>(q: Store<T>, x: nat)
    requires q.WellFormed()
    ensures x !in q.Addresses() ==> Apply(q, Drop(x)) == q
    ensures forall k: nat :: k < |q.entries| && q.entries[k].address == x ==>
      Apply(q, Drop(x)) == Store(q.entries[..k] + q.entries[k + 1..], [x] + q.free, q.top)
  {
    forall k: nat | k < |q.entries| && q.entries[k].address == x
      ensures Apply(q, Drop(x)) == Store(q.entries[..k] + q.entries[k + 1..], [x] + q.free, q.top)
    {
      assert q.Addresses()[k] == x && q.Addresses()[IndexOf(q.Addresses(), x)] == x;
    }
  }

  lemma ResetEmpties<T>(q: Store<T>)
    requires q.top > 0
    ensures Apply(q, Reset) == Store([], UpTo(q.top), q.top)
    ensures Apply(q, Reset).WellFormed()
  {
    UpToHas(q.top);
    assert Apply(q, Reset).Addresses() == [];
  }

  ghost predicate Absent<T>(q: Store<T>, x: nat) { forall e :: e in q.entries ==> e.address != x }

  lemma DropLeavesNone<T>(q: Store<T>, x: nat)
    requires q.WellFormed()
    ensures Absent(Apply(q, Drop(x)), x)
  {
    DropTakesOut(q, x);
    var r := Apply(q, Drop(x));
    forall i: nat | i < |r.entries| ensures r.entries[i].address != x {
      assert r.entries[i] in q.entries;
      if x in q.Addresses() {
        var k := IndexOf(q.Addresses(), x);
        assert r.entries[i] == q.entries[if i < k then i else i + 1];
        assert q.Addresses()[if i < k then i else i + 1] == r.entries[i].address;
      }
    }
  }

  lemma StaysAbsent<T>(q: Store<T>, op: Op<T>, x: nat)
    requires q.WellFormed() && Absent(q, x) && (op.Push? ==> Taken(q.free, q.top) != x)
    ensures Absent(Apply(q, op), x)
  {
    if op.Drop? {
      DropTakesOut(q, op.address);
      if op.address in q.Addresses() {
        var k := IndexOf(q.Addresses(), op.address);
        assert Apply(q, op).entries == q.entries[..k] + q.entries[k + 1..];
      }
    }
  }

  /** Once its element is dropped an address denotes nothing, until a push hands it out again. */
  lemma {:induction false} DroppedIsGone<T>(q: Store<T>, ops: seq<Op<T>>, x: nat)
    requires q.WellFormed() && Absent(q, x) && x !in HandedOut(q, ops)
    ensures Absent(ApplyAll(q, ops), x)
    decreases |ops|
  {
    hide Absent;
    if ops == [] {
    } else {
      ApplyKeepsForm(q, ops[0]);
      StaysAbsent(q, ops[0], x);
      DroppedIsGone(Apply(q, ops[0]), ops[1..], x);
    }
  }

  lemma AfterDropGone<T>(q: Store<T>, x: nat, ops: seq<Op<T>>)
    requires q.WellFormed() && x !in HandedOut(Apply(q, Drop(x)), ops)
    ensures Absent(ApplyAll(Apply(q, Drop(x)), ops), x)
  {
    ApplyKeepsForm(q, Drop(x));
    DropLeavesNone(q, x);
    DroppedIsGone(Apply(q, Drop(x)), ops, x);
    hide Absent;
  }

  function Max(a: nat, b: nat): nat { if a < b then b else a }

  /** The largest number of elements held at any moment of a run. */
  function Peak<T>(q: Store<T>, ops: seq<Op<T>>): nat
    requires q.top > 0
    decreases |ops|
  {
    if ops == [] then |q.entries| else Max(|q.entries|, Peak(Apply(q, ops[0]), ops[1..]))
  }

  /** The memory grows only when it must: to the capacity or the peak, whichever is larger. */
  lemma {:induction false} MemoryIsThePeak<T>(q: Store<T>, ops: seq<Op<T>>)
    requires q.top > 0 && |q.entries| + |q.free| == q.top - 1
    ensures ApplyAll(q, ops).top - 1 == Max(q.top - 1, Peak(q, ops))
    decreases |ops|
  {
    if ops == [] {
    } else {
      MemoryIsThePeak(Apply(q, ops[0]), ops[1..]);
    }
  }

  class CommQueue<T> {
    const blank: T
    var memory: seq<Node<T>>
    var freeList: nat
    var usedList: nat
    var size: nat
    ghost var used: seq<nat>
    ghost var free: seq<nat>

    ghost predicate Valid()
      reads this
    {
      Shape(memory, used, free, usedList, freeList) && size == |used|
    }

    ghost function Entries(): seq<Entry<T>>
      reads this
      requires Valid()
    {
      EntriesOf(memory, used)
    }

    ghost function Value(): Store<T>
      reads this
      requires Valid()
    {
      Store(Entries(), free, |memory|)
    }

    constructor (blank: T, capacity: nat)
      ensures Valid() && Value() == Store([], UpTo(capacity + 1), capacity + 1)
    {
      this.blank := blank;
      memory := seq(capacity + 1, _ => Node(blank, 0, 0));
      freeList, usedList, size := 0, 0, 0;
      used, free := [], UpTo(capacity + 1);
      new;
      var i := 1;
      while i < |memory| - 1
        invariant |memory| == capacity + 1 && 1 <= i
        invariant forall j :: 1 <= j < i && j < |memory| - 1 ==> memory[j].next == j + 1
        invariant used == [] && free == UpTo(|memory|) && usedList == 0 && size == 0
      {
        memory := memory[i := memory[i].(next := i + 1)];
        i := i + 1;
      }
      memory := memory[|memory| - 1 := memory[|memory| - 1].(next := 0)];
      freeList := if |memory| > 1 then 1 else 0;
      UpToIsLinked(memory);
    }

    /** `add`: appends, on the node freed last or on a new one; returns its address. */
    method Add(data: T) returns (newIdx: nat)
      requires Valid()
      modifies this
      ensures Valid() && Value() == Apply(old(Value()), Push(data))
      ensures newIdx == (if old(free) == [] then old(|memory|) else old(free)[0]) && newIdx != 0
      ensures forall e :: e in old(Entries()) ==> e.address != newIdx
      ensures Entries() == old(Entries()) + [Entry(newIdx, data)]
      ensures free == if old(free) == [] then [] else old(free)[1..]
      ensures |memory| == old(|memory|) + if old(free) == [] then 1 else 0
    {
      hide Shape, EntriesOf;
      newIdx := freeList;
      BeforeAppend(memory, used, free, usedList, freeList);
      if newIdx == 0 {
        newIdx := |memory|;
        memory := memory + [Node(blank, 0, 0)];
      }
      ghost var was := memory;
      Link(newIdx, data);
      LinkedAt(old(memory), was, memory, used, free, old(usedList), old(freeList), data);
      AppendShape(old(memory), memory, used, free, old(usedList), old(freeList), data);
      used, free := used + [newIdx], Rest(free);
    }

    /** The rest of `add`: takes node `idx` off the free list, and links it at the end. */
    method Link(idx: nat, data: T)
      requires 0 < idx < |memory| && usedList < |memory| && (usedList != 0 ==> memory[usedList].prev < |memory|)
      requires usedList != 0 ==> idx != usedList && idx != memory[usedList].prev
      modifies `memory, `usedList, `freeList, `size
      ensures LinkedBy(old(memory), memory, idx, old(usedList), data)
      ensures freeList == old(memory)[idx].next && size == old(size) + 1
      ensures usedList == if old(usedList) == 0 then idx else old(usedList)
    {
      freeList := memory[idx].next;
      if usedList != 0 {
        var lastIdx := memory[usedList].prev;
        memory := memory[lastIdx := memory[lastIdx].(next := idx)];
        memory := memory[idx := memory[idx].(prev := lastIdx)];
        memory := memory[usedList := memory[usedList].(prev := idx)];
      } else {
        usedList := idx;
        memory := memory[idx := memory[idx].(prev := idx)];
      }
      memory := memory[idx := memory[idx].(next := 0)];
      memory := memory[idx := memory[idx].(data := data)];
      size := size + 1;
    }

    /** The body of `remove`: unlinks node `idx` and makes it the head of the free list. */
    method Unlink(idx: nat) returns (next: nat)
      requires 0 < idx < |memory| && usedList < |memory| && size > 0
      requires memory[idx].next < |memory| && memory[idx].prev < |memory|
      modifies `memory, `usedList, `freeList, `size
      ensures UnlinkedBy(old(memory), memory, idx, old(usedList), old(freeList), blank)
      ensures next == old(memory)[idx].next && freeList == idx && size == old(size) - 1
      ensures usedList == if idx == old(usedList) then next else old(usedList)
    {
      var node := memory[idx];
      next := node.next;
      memory := memory[idx := memory[idx].(data := blank)];
      if node.next != 0 {
        memory := memory[node.next := memory[node.next].(prev := node.prev)];
      } else {
        memory := memory[usedList := memory[usedList].(prev := node.prev)];
      }
      if idx != usedList {
        memory := memory[node.prev := memory[node.prev].(next := node.next)];
      } else {
        usedList := node.next;
      }
      memory := memory[idx := memory[idx].(next := freeList)];
      memory := memory[idx := memory[idx].(prev := 0)];
      freeList := idx;
      size := size - 1;
    }

    /** `remove`: the element at address `idx` goes, wherever it stands; returns the address after it. */
    method Remove(idx: nat) returns (next: nat)
      requires Valid() && (idx != 0 ==> idx in used)
      modifies this
      ensures Valid() && Value() == Apply(old(Value()), Drop(idx)) && |memory| == old(|memory|)
      ensures idx == 0 ==> next == 0 && Value() == old(Value())
      ensures idx != 0 ==> next == NextIn(old(used), IndexOf(old(used), idx))
      ensures idx != 0 ==> TakesOut(old(Entries()), Entries(), idx, next)
      ensures idx != 0 ==> free == [idx] + old(free) && forall e :: e in Entries() ==> e.address != idx
    {
      ghost var k := IndexOf(used, idx);
      ValueAddresses();
      hide Shape, EntriesOf, NextIn, UnlinkedBy, IndexOf, TakesOut;
      if idx == 0 {
        return 0;
      }
      BeforeUnlink(memory, used, free, usedList, freeList, k);
      next := Unlink(idx);
      UnlinkShape(old(memory), memory, used, free, old(usedList), old(freeList), k, blank);
      TakenOut(old(memory), memory, used, free, old(usedList), old(freeList), usedList, k, blank);
      used, free := Without(used, k), [idx] + free;
    }

    lemma ValueAddresses()
      requires Valid()
      ensures Value().WellFormed() && Value().Addresses() == used && 0 !in used
    {
      assert Value().Addresses() == used;
    }

    /** `clear`: every node is free again, in order; the memory keeps its size. */
    method Clear()
      requires Valid()
      modifies this
      ensures Valid() && Value() == Apply(old(Value()), Reset)
      ensures Entries() == [] && free == UpTo(|memory|) && |memory| == old(|memory|)
    {
      freeList := if |memory| > 1 then 1 else 0;
      usedList := 0;
      size := 0;
      used, free := [], UpTo(|memory|);
      var i := 1;
      while i < |memory|
        invariant |memory| == old(|memory|) && 1 <= i <= |memory|
        invariant forall j :: 1 <= j < i ==> memory[j].next == j + 1
        invariant used == [] && free == UpTo(|memory|) && usedList == 0 && size == 0
        invariant freeList == if |memory| > 1 then 1 else 0
      {
        memory := memory[i := memory[i].(next := i + 1)];
        i := i + 1;
      }
      memory := memory[|memory| - 1 := memory[|memory| - 1].(next := 0)];
      UpToIsLinked(memory);
    }

    /** Iteration from `begin` to `end` with `++`: it ends, and visits the elements in order. */
    method Iterate() returns (visited: seq<Entry<T>>)
      requires Valid()
      ensures visited == Entries()
    {
      visited := [];
      var it := usedList;
      ghost var i := 0;
      while it != 0
        invariant i <= |used| && it == (if i < |used| then used[i] else 0)
        invariant visited == Entries()[..i]
        decreases |used| - i
      {
        assert memory[used[i]].next == NextIn(used, i);
        visited := visited + [Entry(it, memory[it].data)];
        it := memory[it].next;
        i := i + 1;
      }
    }

    /** `at`: the value at a live address. */
    method At(idx: nat) returns (value: T)
      requires Valid() && idx in used
      ensures Entry(idx, value) in Entries()
    {
      value := memory[idx].data;
      assert Entries()[IndexOf(used, idx)] == Entry(idx, value);
    }

    method Size() returns (n: nat)
      requires Valid()
      ensures n == |Entries()|
    {
      n := size;
    }

    method Empty() returns (b: bool)
      requires Valid()
      ensures b <==> Entries() == []
    {
      b := size == 0;
    }

    /** `copy`: the same elements at the same addresses in a queue of its own. */
    method Copy() returns (queue: CommQueue<T>)
      requires Valid()
      ensures fresh(queue) && queue.Valid() && queue.Value() == Value()
    {
      queue := new CommQueue(blank, 32);
      queue.freeList := freeList;
      queue.usedList := usedList;
      queue.size := size;
      queue.memory := memory;
      queue.used, queue.free := used, free;
    }
  }
}
