/**
  The unbounded queue `TU_LockFreeQueue` (Michael and Scott) as a machine over its
  atomic accesses, with the node pool: a popped node is pushed on a free list, which
  overwrites its `next` while stalled threads may still hold the node.

  Addresses index the heap and 0 is the null pointer.  History records the chain of
  all nodes ever linked, what became of each node, and the contents of the queue before
  every step.
 */
module LinkedQueue {
  import opened Common

  /** History of an allocated node: still private to its pusher, or the `i`-th of the chain. */
  datatype Place = Private(p: Tid) | Linked(i: nat)

  /** History of a dequeued node: its popper is releasing it, or it is the `i`-th released. */
  datatype Fate = Held(p: Tid) | Freed(i: nat)

  datatype Node<T> = Node(data: T, next: Ptr, place: Place)

  /** A `pop` that answered false: when it was called, loaded `next`, and answered. */
  datatype EmptyAnswer = EmptyAnswer(since: nat, seen: nat, until: nat)

  /** Where a thread stands, with its locals; `since` and `seen` are history. */
  datatype Pc<T> =
    | Idle
    | PushAlloc(v: T)
    | PushLoadTail(v: T, n: nat)
    | PushLoadNext(v: T, n: nat, tail: Ptr)
    | PushCheck(v: T, n: nat, tail: Ptr, next: Ptr)
    | PushLink(v: T, n: nat, tail: Ptr, next: Ptr)
    | PushHelp(v: T, n: nat, tail: Ptr, next: Ptr)
    | PushSwing(n: nat, tail: Ptr)
    | PushEnd
    | PopLoadHead(since: nat)
    | PopLoadTail(since: nat, head: Ptr)
    | PopLoadNext(since: nat, head: Ptr, tail: Ptr)
    | PopCheck(since: nat, head: Ptr, tail: Ptr, next: Ptr, seen: nat)
    | PopHelp(since: nat, tail: Ptr, next: Ptr)
    | PopReadData(since: nat, head: Ptr, next: Ptr)
    | PopCas(since: nat, head: Ptr, next: Ptr, r: T)
    | FreeLoad(head: Ptr, r: T)
    | FreeStore(head: Ptr, r: T, free: Ptr)
    | FreeCas(head: Ptr, r: T, free: Ptr)
    | PopEnd(result: Option<T>)

  datatype State<T> = State(
    heap: seq<Node<T>>,
    head: Ptr,
    tail: Ptr,
    free: Ptr,
    pcs: map<Tid, Pc<T>>,
    chain: seq<nat>,             // address of every node ever linked, in order
    values: seq<T>,              // their data
    taken: seq<T>,               // what successful pops took, in order
    fate: seq<Fate>,             // of every node the head has passed
    freed: seq<nat>,             // chain positions released to the pool, in order
    past: seq<seq<T>>,           // queue contents before each step
    empties: seq<EmptyAnswer>)

  datatype Action<T> = CallPush(v: T) | CallPop | Step(spurious: bool)

  function PcOf<T>(s: State<T>, p: Tid): Pc<T> {
    if p in s.pcs then s.pcs[p] else Idle
  }

  function Goto<T>(s: State<T>, p: Tid, pc: Pc<T>): State<T> {
    s.(pcs := s.pcs[p := pc])
  }

  /** The constructor: one dummy node, both ends at it with tag zero, an empty pool. */
  function Init<T>(blank: T): State<T> {
    State([Node(blank, NULL, Linked(0)), Node(blank, NULL, Linked(0))], Ptr(1, 0), Ptr(1, 0), NULL,
          map[], [1], [blank], [], [], [], [], [])
  }

  function NextOf<T>(s: State<T>, id: nat): Ptr {
    if id < |s.heap| then s.heap[id].next else NULL
  }

  function DataOf<T>(s: State<T>, id: nat, otherwise: T): T {
    if id < |s.heap| then s.heap[id].data else otherwise
  }

  function SetNext<T>(s: State<T>, id: nat, next: Ptr): State<T> {
    if id < |s.heap| then s.(heap := s.heap[id := s.heap[id].(next := next)]) else s
  }

  /** The queue the list stands for: the data of the nodes after the head. */
  function Abs<T>(s: State<T>): seq<T> {
    if s.head.count < |s.values| then s.values[s.head.count + 1..] else []
  }

  /** Between allocating a node and linking it. */
  predicate Making<T>(pc: Pc<T>) {
    pc.PushLoadTail? || pc.PushLoadNext? || pc.PushCheck? || pc.PushLink? || pc.PushHelp?
  }

  /** Between dequeuing a node and handing it to the pool. */
  predicate Freeing<T>(pc: Pc<T>) {
    pc.FreeLoad? || pc.FreeStore? || pc.FreeCas?
  }

  /** One access of thread `p`; an action that does not apply changes nothing. */
  function Move<T>(s: State<T>, p: Tid, a: Action<T>): State<T> {
    var pc := PcOf(s, p);
    match a
    case CallPush(v) => Goto(s, p, if pc.Idle? then PushAlloc(v) else pc)
    case CallPop => Goto(s, p, if pc.Idle? then PopLoadHead(|s.past|) else pc)
    case Step(spurious) =>
      if Making(pc) then PushMove(s, p, spurious)
      else if Freeing(pc) then FreeMove(s, p, spurious)
      else
        match pc
        case PushAlloc(v) =>
          Goto(s, p, PushLoadTail(v, |s.heap|)).(heap := s.heap + [Node(v, NULL, Private(p))])
        case PushSwing(n, tail) => Goto(AdvanceTail(s, tail, n, spurious), p, PushEnd)
        case _ => PopMove(s, p, spurious)
  }

  /** The retry loop of `push`. */
  function PushMove<T>(s: State<T>, p: Tid, spurious: bool): State<T>
    requires Making(PcOf(s, p))
  {
    match PcOf(s, p)
    case PushLoadTail(v, n) => Goto(s, p, PushLoadNext(v, n, s.tail))
    case PushLoadNext(v, n, tail) => Goto(s, p, PushCheck(v, n, tail, NextOf(s, tail.id)))
    case PushCheck(v, n, tail, next) =>
      Goto(s, p, if tail != s.tail then PushLoadTail(v, n)
                 else if next.id == 0 then PushLink(v, n, tail, next)
                 else PushHelp(v, n, tail, next))
    case PushLink(v, n, tail, next) => Link(s, p, v, n, tail, next, spurious)
    case PushHelp(v, n, tail, next) => Goto(AdvanceTail(s, tail, next.id, spurious), p, PushLoadTail(v, n))
  }

  /** The retry loop of `pop`, and the return of every call. */
  function PopMove<T>(s: State<T>, p: Tid, spurious: bool): State<T> {
    match PcOf(s, p)
    case PopLoadHead(since) => Goto(s, p, PopLoadTail(since, s.head))
    case PopLoadTail(since, head) => Goto(s, p, PopLoadNext(since, head, s.tail))
    case PopLoadNext(since, head, tail) =>
      Goto(s, p, PopCheck(since, head, tail, NextOf(s, head.id), |s.past|))
    case PopCheck(since, head, tail, next, seen) => Check(s, p, since, head, tail, next, seen)
    case PopHelp(since, tail, next) =>
      Goto(AdvanceTail(s, tail, next.id, spurious), p, PopLoadHead(since))
    case PopReadData(since, head, next) =>
      if next.id < |s.heap| then Goto(s, p, PopCas(since, head, next, s.heap[next.id].data)) else s
    case PopCas(since, head, next, r) => AdvanceHead(s, p, since, head, next, r, spurious)
    case _ => Goto(s, p, Idle)
  }

  /** `release_node`. */
  function FreeMove<T>(s: State<T>, p: Tid, spurious: bool): State<T>
    requires Freeing(PcOf(s, p))
  {
    match PcOf(s, p)
    case FreeLoad(head, r) => Goto(s, p, FreeStore(head, r, s.free))
    case FreeStore(head, r, free) =>
      Goto(SetNext(s, head.id, Ptr(free.id, free.count + 1)), p, FreeCas(head, r, free))
    case FreeCas(head, r, free) => Release(s, p, head, r, free, spurious)
  }

  /** The compare-exchange that links the new node behind the last one. */
  function Link<T>(s: State<T>, p: Tid, v: T, n: nat, tail: Ptr, next: Ptr, spurious: bool): State<T> {
    if spurious || NextOf(s, tail.id) != next || n >= |s.heap| then Goto(s, p, PushLoadTail(v, n))
    else
      var s1 := SetNext(s, tail.id, Ptr(n, next.count + 1));
      Goto(s1, p, PushSwing(n, tail)).(
        heap := s1.heap[n := s1.heap[n].(place := Linked(|s.chain|))],
        chain := s.chain + [n], values := s.values + [v])
  }

  /** Compare-exchange on `tail_` from a pointer read earlier to its successor. */
  function AdvanceTail<T>(s: State<T>, tail: Ptr, id: nat, spurious: bool): State<T> {
    if spurious || s.tail != tail then s else s.(tail := Ptr(id, tail.count + 1))
  }

  /** The consistency check of `pop` and its three outcomes. */
  function Check<T>(s: State<T>, p: Tid, since: nat, head: Ptr, tail: Ptr, next: Ptr, seen: nat): State<T> {
    if head != s.head then Goto(s, p, PopLoadHead(since))
    else if head == tail then
      if next.id == 0 then
        Goto(s, p, PopEnd(None)).(empties := s.empties + [EmptyAnswer(since, seen, |s.past|)])
      else Goto(s, p, PopHelp(since, tail, next))
    else Goto(s, p, PopReadData(since, head, next))
  }

  /** The compare-exchange on `head_` that dequeues. */
  function AdvanceHead<T>(s: State<T>, p: Tid, since: nat, head: Ptr, next: Ptr, r: T, spurious: bool): State<T> {
    if spurious || s.head != head then Goto(s, p, PopLoadHead(since))
    else Goto(s, p, FreeLoad(head, r)).(
      head := Ptr(next.id, head.count + 1), fate := s.fate + [Held(p)], taken := s.taken + [r])
  }

  /** The compare-exchange that puts the dequeued node on top of the pool. */
  function Release<T>(s: State<T>, p: Tid, head: Ptr, r: T, free: Ptr, spurious: bool): State<T> {
    if spurious || s.free != free then Goto(s, p, FreeLoad(head, r))
    else if head.count >= |s.fate| then s
    else
      Goto(s, p, PopEnd(Some(r))).(free := Ptr(head.id, free.count + 1),
        fate := s.fate[head.count := Freed(|s.freed|)], freed := s.freed + [head.count])
  }

  function Recorded<T>(s: State<T>, s': State<T>): State<T> {
    s'.(past := s.past + [Abs(s)])
  }

  function Next<T>(s: State<T>, p: Tid, a: Action<T>): State<T> {
    Recorded(s, Move(s, p, a))
  }

  function Run<T>(s: State<T>, schedule: seq<(Tid, Action<T>)>): State<T>
    decreases |schedule|
  {
    if schedule == [] then s
    else Run(Next(s, schedule[0].0, schedule[0].1), schedule[1..])
  }

  // ----- invariant -----------------------------------------------------------

  /** Tags are chain positions, the head never passes the tail, the tail lags at most one. */
  ghost predicate EndsInv<T>(s: State<T>) {
    && |s.values| == |s.chain| && |s.fate| == |s.taken| == s.head.count
    && s.head.count <= s.tail.count < |s.chain| <= s.tail.count + 2
    && s.taken == s.values[1..s.head.count + 1]
    && s.head.id == s.chain[s.head.count] && s.tail.id == s.chain[s.tail.count]
  }

  ghost predicate ChainInv<T>(s: State<T>, i: nat)
    requires EndsInv(s) && i < |s.chain|
  {
    && 0 < s.chain[i] < |s.heap|
    && var n := s.heap[s.chain[i]];
    && n.place == Linked(i) && n.data == s.values[i]
    && if i == |s.chain| - 1 then n.next == NULL
       else n.next.count >= 1 && (i >= s.head.count ==> n.next == Ptr(s.chain[i + 1], 1))
  }

  ghost predicate NodeInv<T>(s: State<T>, id: nat)
    requires EndsInv(s) && 0 < id < |s.heap|
  {
    match s.heap[id].place
    case Linked(i) => i < |s.chain| && s.chain[i] == id
    case Private(p) => Making(PcOf(s, p)) && PcOf(s, p).n == id
  }

  ghost predicate FateInv<T>(s: State<T>, k: nat)
    requires k < |s.fate|
  {
    match s.fate[k]
    case Held(p) => Freeing(PcOf(s, p)) && PcOf(s, p).head.count == k
    case Freed(i) => i < |s.freed| && s.freed[i] == k
  }

  /** The pool: each released node points at the one released before it. */
  ghost predicate PoolInv<T>(s: State<T>, i: nat)
    requires EndsInv(s) && i < |s.freed|
  {
    && s.freed[i] < s.head.count && s.fate[s.freed[i]] == Freed(i)
    && NextOf(s, s.chain[s.freed[i]]) == Ptr(if i == 0 then 0 else FreedAddress(s, i - 1), i + 1)
  }

  function FreedAddress<T>(s: State<T>, i: nat): nat {
    if i < |s.freed| && s.freed[i] < |s.chain| then s.chain[s.freed[i]] else 0
  }

  ghost predicate FreeInv<T>(s: State<T>) {
    s.free == Ptr(if s.freed == [] then 0 else FreedAddress(s, |s.freed| - 1), |s.freed|)
  }

  ghost predicate EmptyInv<T>(s: State<T>, e: EmptyAnswer) {
    e.since <= e.seen < e.until < |s.past| && s.past[e.seen] == []
  }

  /** A pointer read from an end of the queue in the past. */
  ghost predicate Was<T>(s: State<T>, ptr: Ptr, now: Ptr) {
    ptr.count <= now.count && ptr.count < |s.chain| && ptr.id == s.chain[ptr.count]
  }

  ghost predicate Succ<T>(s: State<T>, k: nat, id: nat) {
    k + 1 < |s.chain| && id == s.chain[k + 1]
  }

  ghost predicate Owns<T>(s: State<T>, p: Tid, v: T, n: nat) {
    0 < n < |s.heap| && s.heap[n] == Node(v, NULL, Private(p))
  }

  ghost predicate HoldsNode<T>(s: State<T>, p: Tid, head: Ptr, r: T)
    requires EndsInv(s)
  {
    && head.count < s.head.count && head.id == s.chain[head.count]
    && s.fate[head.count] == Held(p) && r == s.values[head.count + 1]
  }

  ghost predicate ThreadInv<T>(s: State<T>, p: Tid)
    requires EndsInv(s)
  {
    match PcOf(s, p)
    case PushLoadTail(v, n) => Owns(s, p, v, n)
    case PushLoadNext(v, n, tail) => Owns(s, p, v, n) && Was(s, tail, s.tail)
    case PushCheck(v, n, tail, next) =>
      && Owns(s, p, v, n) && Was(s, tail, s.tail)
      && (tail.count < s.tail.count || next == NULL || (Succ(s, tail.count, next.id) && next.id != 0))
    case PushLink(v, n, tail, next) => Owns(s, p, v, n) && Was(s, tail, s.tail) && next == NULL
    case PushHelp(v, n, tail, next) => Owns(s, p, v, n) && Was(s, tail, s.tail) && Succ(s, tail.count, next.id)
    case PushSwing(n, tail) => Was(s, tail, s.tail) && Succ(s, tail.count, n)
    case PopLoadHead(since) => since < |s.past|
    case PopLoadTail(since, head) => since < |s.past| && Was(s, head, s.head)
    case PopLoadNext(since, head, tail) =>
      since < |s.past| && Was(s, head, s.head) && Was(s, tail, s.tail) && head.count <= tail.count
    case PopCheck(since, head, tail, next, seen) =>
      && since <= seen < |s.past| && Was(s, head, s.head) && Was(s, tail, s.tail) && head.count <= tail.count
      && (head.count < s.head.count
          || (Succ(s, head.count, next.id) && next.id != 0)
          || (next == NULL && head.count == tail.count && s.past[seen] == []))
    case PopHelp(since, tail, next) => since < |s.past| && Was(s, tail, s.tail) && Succ(s, tail.count, next.id)
    case PopReadData(since, head, next) =>
      since < |s.past| && Was(s, head, s.head) && Succ(s, head.count, next.id) && head.count < s.tail.count
    case PopCas(since, head, next, r) =>
      && since < |s.past| && Was(s, head, s.head) && Succ(s, head.count, next.id) && head.count < s.tail.count
      && r == s.values[head.count + 1]
    case FreeLoad(head, r) => HoldsNode(s, p, head, r)
    case FreeStore(head, r, free) => HoldsNode(s, p, head, r)
    case FreeCas(head, r, free) => HoldsNode(s, p, head, r) && NextOf(s, head.id) == Ptr(free.id, free.count + 1)
    case _ => true
  }

  /** The part of the invariant about memory and history. */
  ghost predicate MemoryInv<T>(s: State<T>) {
    && EndsInv(s) && FreeInv(s)
    && (forall i: nat | i < |s.chain| :: ChainInv(s, i))
    && (forall id: nat | 0 < id < |s.heap| :: NodeInv(s, id))
    && (forall k: nat | k < |s.fate| :: FateInv(s, k))
    && (forall i: nat | i < |s.freed| :: PoolInv(s, i))
    && (forall e <- s.empties :: EmptyInv(s, e))
  }

  ghost predicate Inv<T>(s: State<T>) {
    MemoryInv(s) && forall p: Tid :: ThreadInv(s, p)
  }

  // ----- every step keeps the invariant ---------------------------------------

  lemma InitInv<T>(blank: T)
    ensures Inv(Init(blank))
  {
  }

  /** What a step of `p` may change under the other threads' feet. */
  ghost predicate Stable<T>(s: State<T>, s': State<T>, p: Tid)
    requires EndsInv(s) && EndsInv(s')
  {
    && s.chain <= s'.chain && s.values <= s'.values && s.past <= s'.past
    && s.head.count <= s'.head.count && s.tail.count <= s'.tail.count
    && |s.heap| <= |s'.heap|
    && (forall q: Tid | q != p :: PcOf(s', q) == PcOf(s, q))
    && (forall id: nat, q: Tid | id < |s.heap| && s.heap[id].place == Private(q) && q != p :: s'.heap[id] == s.heap[id])
    && (forall k: nat, q: Tid | k < |s.fate| && s.fate[k] == Held(q) && q != p ::
          s'.fate[k] == Held(q) && NextOf(s', s.chain[k]) == NextOf(s, s.chain[k]))
  }

  /** What a thread knows of its pointers, its private node and its dequeued node survives. */
  lemma KnowledgeKeeps<T>(s: State<T>, s': State<T>, p: Tid)
    requires EndsInv(s) && EndsInv(s') && Stable(s, s', p)
    ensures forall ptr :: Was(s, ptr, s.tail) ==> Was(s', ptr, s'.tail)
    ensures forall ptr :: Was(s, ptr, s.head) ==> Was(s', ptr, s'.head)
    ensures forall k, id :: Succ(s, k, id) ==> Succ(s', k, id)
    ensures forall q: Tid, v, n | q != p :: Owns(s, q, v, n) ==> Owns(s', q, v, n)
    ensures forall q: Tid, head, r | q != p && HoldsNode(s, q, head, r) ::
      HoldsNode(s', q, head, r) && NextOf(s', head.id) == NextOf(s, head.id)
  {
  }

  lemma OtherKeeps<T>(s: State<T>, s': State<T>, p: Tid, q: Tid)
    requires EndsInv(s) && EndsInv(s') && Stable(s, s', p)
    requires ThreadInv(s, q) && q != p
    ensures ThreadInv(s', q)
  {
    KnowledgeKeeps(s, s', p);
    hide Was, Succ, Owns, HoldsNode, NextOf;
  }

  lemma OthersKeep<T>(s: State<T>, s': State<T>, p: Tid)
    requires EndsInv(s) && EndsInv(s') && Stable(s, s', p)
    requires forall q: Tid :: ThreadInv(s, q)
    requires ThreadInv(s', p)
    ensures forall q: Tid :: ThreadInv(s', q)
  {
    hide ThreadInv, Stable;
    forall q: Tid ensures ThreadInv(s', q) {
      assert ThreadInv(s, q);
      if q != p { OtherKeeps(s, s', p, q); }
    }
  }

  /** `p` keeps what it owns: its private node while pushing, its dequeued node while releasing. */
  ghost predicate SameHoldings<T>(pc: Pc<T>, pc': Pc<T>) {
    && (Making(pc) <==> Making(pc')) && (Making(pc) ==> pc'.n == pc.n)
    && (Freeing(pc) <==> Freeing(pc')) && (Freeing(pc) ==> pc'.head == pc.head)
  }

  /** Steps that touch only the locals of `p` and the history. */
  lemma QuietKeepsInv<T>(s: State<T>, p: Tid, pc: Pc<T>, empties: seq<EmptyAnswer>)
    requires Inv(s) && SameHoldings(PcOf(s, p), pc)
    requires var s' := Recorded(s, Goto(s, p, pc).(empties := empties));
      ThreadInv(s', p) && forall e <- empties :: EmptyInv(s', e)
    ensures Inv(Recorded(s, Goto(s, p, pc).(empties := empties)))
  {
    var s' := Recorded(s, Goto(s, p, pc).(empties := empties));
    OthersKeep(s, s', p);
    hide ThreadInv;
    forall i: nat | i < |s.chain| ensures ChainInv(s', i) { assert ChainInv(s, i); }
    forall id: nat | 0 < id < |s.heap| ensures NodeInv(s', id) { assert NodeInv(s, id); }
    forall k: nat | k < |s.fate| ensures FateInv(s', k) { assert FateInv(s, k); }
    forall i: nat | i < |s.freed| ensures PoolInv(s', i) { assert PoolInv(s, i); }
  }

  lemma AllocKeepsInv<T>(s: State<T>, p: Tid, v: T, spurious: bool)
    requires Inv(s) && PcOf(s, p) == PushAlloc(v)
    ensures Inv(Next(s, p, Step(spurious)))
  {
    var s' := Next(s, p, Step(spurious));
    assert ChainInv(s, 0);
    forall k: nat | k < |s.fate| ensures NextOf(s', s.chain[k]) == NextOf(s, s.chain[k]) {
      assert ChainInv(s, k);
    }
    OthersKeep(s, s', p);
    hide ThreadInv;
    forall i: nat | i < |s.chain| ensures ChainInv(s', i) { assert ChainInv(s, i); }
    forall id: nat | 0 < id < |s'.heap| ensures NodeInv(s', id) {
      if id < |s.heap| { assert NodeInv(s, id); }
    }
    forall k: nat | k < |s.fate| ensures FateInv(s', k) { assert FateInv(s, k); }
    forall i: nat | i < |s.freed| ensures PoolInv(s', i) { assert PoolInv(s, i); assert ChainInv(s, s.freed[i]); }
  }

  /**
    The link exchange succeeds only on the last node of the chain: every node already
    linked, and every node the pool has overwritten, carries a tag of at least one.
   */
  lemma LinkIsAtTheEnd<T>(s: State<T>, p: Tid, v: T, n: nat, tail: Ptr, next: Ptr)
    requires Inv(s) && PcOf(s, p) == PushLink(v, n, tail, next) && NextOf(s, tail.id) == next
    ensures tail.count == |s.chain| - 1 == s.tail.count && tail == s.tail
    ensures Owns(s, p, v, n) && n != tail.id && next == NULL
  {
    assert ThreadInv(s, p) && ChainInv(s, tail.count);
  }

  lemma LinkKeepsInv<T>(s: State<T>, p: Tid, v: T, n: nat, tail: Ptr, next: Ptr)
    requires Inv(s) && PcOf(s, p) == PushLink(v, n, tail, next) && NextOf(s, tail.id) == next
    ensures Inv(Next(s, p, Step(false)))
  {
    var s' := Next(s, p, Step(false));
    LinkIsStable(s, p, v, n, tail, next);
    LinkKeepsPool(s, p, v, n, tail, next);
    LinkKeepsChain(s, p, v, n, tail, next);
    OthersKeep(s, s', p);
    hide ThreadInv, Stable, PoolInv, FreeInv, ChainInv;
    forall id: nat | 0 < id < |s'.heap| ensures NodeInv(s', id) { assert NodeInv(s, id); }
    forall k: nat | k < |s.fate| ensures FateInv(s', k) { assert FateInv(s, k); }
  }

  lemma LinkIsStable<T>(s: State<T>, p: Tid, v: T, n: nat, tail: Ptr, next: Ptr)
    requires Inv(s) && PcOf(s, p) == PushLink(v, n, tail, next) && NextOf(s, tail.id) == next
    ensures var s' := Next(s, p, Step(false));
      && EndsInv(s') && Stable(s, s', p) && ThreadInv(s', p)
      && s.heap[n].place == Private(p) && s.chain[tail.count] == tail.id
  {
    var s' := Next(s, p, Step(false));
    LinkIsAtTheEnd(s, p, v, n, tail, next);
    assert ChainInv(s, tail.count);
    forall k: nat | k < |s.fate| ensures NextOf(s', s.chain[k]) == NextOf(s, s.chain[k]) {
      assert ChainInv(s, k);
    }
    LinkKeepsOwn(s, p, v, n, tail, next);
    hide ThreadInv;
  }

  lemma LinkKeepsChain<T>(s: State<T>, p: Tid, v: T, n: nat, tail: Ptr, next: Ptr)
    requires Inv(s) && PcOf(s, p) == PushLink(v, n, tail, next) && NextOf(s, tail.id) == next
    ensures var s' := Next(s, p, Step(false));
      EndsInv(s') && forall i: nat | i < |s'.chain| :: ChainInv(s', i)
  {
    var s' := Next(s, p, Step(false));
    LinkIsAtTheEnd(s, p, v, n, tail, next);
    assert ChainInv(s, tail.count);
    forall i: nat | i < |s'.chain| ensures ChainInv(s', i) {
      if i < |s.chain| { assert ChainInv(s, i); }
    }
    hide ThreadInv, NodeInv, PoolInv, FateInv;
  }

  lemma LinkKeepsPool<T>(s: State<T>, p: Tid, v: T, n: nat, tail: Ptr, next: Ptr)
    requires Inv(s) && PcOf(s, p) == PushLink(v, n, tail, next) && NextOf(s, tail.id) == next
    ensures var s' := Next(s, p, Step(false));
      EndsInv(s') && FreeInv(s') && forall i: nat | i < |s.freed| :: PoolInv(s', i)
  {
    var s' := Next(s, p, Step(false));
    LinkIsAtTheEnd(s, p, v, n, tail, next);
    hide ThreadInv;
    assert ChainInv(s, tail.count);
    forall i: nat | i < |s.freed| ensures PoolInv(s', i) {
      assert PoolInv(s, i) && ChainInv(s, s.freed[i]);
      if i > 0 { assert PoolInv(s, i - 1); }
    }
    if s.freed != [] { assert PoolInv(s, |s.freed| - 1); }
  }

  lemma LinkKeepsOwn<T>(s: State<T>, p: Tid, v: T, n: nat, tail: Ptr, next: Ptr)
    requires Inv(s) && PcOf(s, p) == PushLink(v, n, tail, next) && NextOf(s, tail.id) == next
    ensures EndsInv(Next(s, p, Step(false))) && ThreadInv(Next(s, p, Step(false)), p)
  {
    LinkIsAtTheEnd(s, p, v, n, tail, next);
    assert ThreadInv(s, p);
  }

  /** A successful exchange on `tail_` moves it one node along the chain. */
  lemma TailKeepsInv<T>(s: State<T>, p: Tid, id: nat, pc: Pc<T>)
    requires Inv(s) && SameHoldings(PcOf(s, p), pc) && Succ(s, s.tail.count, id)
    requires var s' := Recorded(s, Goto(AdvanceTail(s, s.tail, id, false), p, pc)); EndsInv(s') ==> ThreadInv(s', p)
    ensures Inv(Recorded(s, Goto(AdvanceTail(s, s.tail, id, false), p, pc)))
  {
    var s' := Recorded(s, Goto(AdvanceTail(s, s.tail, id, false), p, pc));
    OthersKeep(s, s', p);
    hide ThreadInv;
    forall i: nat | i < |s.chain| ensures ChainInv(s', i) { assert ChainInv(s, i); }
    forall id: nat | 0 < id < |s.heap| ensures NodeInv(s', id) { assert NodeInv(s, id); }
    forall k: nat | k < |s.fate| ensures FateInv(s', k) { assert FateInv(s, k); }
    forall i: nat | i < |s.freed| ensures PoolInv(s', i) { assert PoolInv(s, i); }
  }

  lemma HeadKeepsInv<T>(s: State<T>, p: Tid, since: nat, head: Ptr, next: Ptr, r: T)
    requires Inv(s) && PcOf(s, p) == PopCas(since, head, next, r) && s.head == head
    ensures Inv(Next(s, p, Step(false)))
  {
    var s' := Next(s, p, Step(false));
    assert ThreadInv(s, p);
    OthersKeep(s, s', p);
    hide ThreadInv;
    forall i: nat | i < |s.chain| ensures ChainInv(s', i) { assert ChainInv(s, i); }
    forall id: nat | 0 < id < |s.heap| ensures NodeInv(s', id) { assert NodeInv(s, id); }
    forall k: nat | k < |s'.fate| ensures FateInv(s', k) {
      if k < |s.fate| { assert FateInv(s, k); }
    }
    forall i: nat | i < |s.freed| ensures PoolInv(s', i) { assert PoolInv(s, i); }
  }

  lemma StoreIsStable<T>(s: State<T>, p: Tid, head: Ptr, r: T, free: Ptr)
    requires Inv(s) && PcOf(s, p) == FreeStore(head, r, free)
    ensures var s' := Next(s, p, Step(false));
      && EndsInv(s') && Stable(s, s', p) && ThreadInv(s', p)
      && 0 < head.id < |s.heap| && s.heap[head.id].place == Linked(head.count)
      && head.count < |s.fate| && s.fate[head.count] == Held(p)
  {
    var s' := Next(s, p, Step(false));
    assert ThreadInv(s, p) && ChainInv(s, head.count);
    forall k: nat | k < |s.fate| && k != head.count ensures NextOf(s', s.chain[k]) == NextOf(s, s.chain[k]) {
      assert ChainInv(s, k);
    }
  }

  /** Overwriting `next` of a dequeued node disturbs neither the live chain nor the pool. */
  lemma StoreKeepsInv<T>(s: State<T>, p: Tid, head: Ptr, r: T, free: Ptr)
    requires Inv(s) && PcOf(s, p) == FreeStore(head, r, free)
    ensures Inv(Next(s, p, Step(false)))
  {
    var s' := Next(s, p, Step(false));
    StoreIsStable(s, p, head, r, free);
    OthersKeep(s, s', p);
    hide ThreadInv;
    forall i: nat | i < |s.chain| ensures ChainInv(s', i) { assert ChainInv(s, i); }
    forall id: nat | 0 < id < |s.heap| ensures NodeInv(s', id) { assert NodeInv(s, id); }
    forall k: nat | k < |s.fate| ensures FateInv(s', k) { assert FateInv(s, k); }
    forall i: nat | i < |s.freed| ensures PoolInv(s', i) {
      assert PoolInv(s, i) && ChainInv(s, s.freed[i]);
    }
  }

  lemma ReleaseIsStable<T>(s: State<T>, p: Tid, head: Ptr, r: T, free: Ptr)
    requires Inv(s) && PcOf(s, p) == FreeCas(head, r, free) && s.free == free
    ensures var s' := Next(s, p, Step(false)); EndsInv(s') && Stable(s, s', p) && ThreadInv(s', p)
  {
    assert ThreadInv(s, p);
  }

  lemma ReleaseKeepsPool<T>(s: State<T>, p: Tid, head: Ptr, r: T, free: Ptr)
    requires Inv(s) && PcOf(s, p) == FreeCas(head, r, free) && s.free == free
    ensures var s' := Next(s, p, Step(false));
      EndsInv(s') && FreeInv(s') && forall i: nat | i < |s'.freed| :: PoolInv(s', i)
  {
    var s' := Next(s, p, Step(false));
    assert ThreadInv(s, p);
    hide ThreadInv, ChainInv, NodeInv;
    forall i: nat | i < |s'.freed| ensures PoolInv(s', i) {
      if i < |s.freed| { assert PoolInv(s, i); }
      if i > 0 { assert PoolInv(s, i - 1); }
    }
  }

  lemma ReleaseKeepsInv<T>(s: State<T>, p: Tid, head: Ptr, r: T, free: Ptr)
    requires Inv(s) && PcOf(s, p) == FreeCas(head, r, free) && s.free == free
    ensures Inv(Next(s, p, Step(false)))
  {
    var s' := Next(s, p, Step(false));
    ReleaseIsStable(s, p, head, r, free);
    ReleaseKeepsPool(s, p, head, r, free);
    OthersKeep(s, s', p);
    hide ThreadInv, Stable, PoolInv, FreeInv;
    forall i: nat | i < |s.chain| ensures ChainInv(s', i) { assert ChainInv(s, i); }
    forall id: nat | 0 < id < |s.heap| ensures NodeInv(s', id) { assert NodeInv(s, id); }
    forall k: nat | k < |s.fate| ensures FateInv(s', k) { assert FateInv(s, k); }
  }

  /** The `next` of a node the head has not passed leads to its successor, or is null at the end. */
  lemma LiveNext<T>(s: State<T>, k: nat)
    requires MemoryInv(s) && s.head.count <= k < |s.chain|
    ensures var next := NextOf(s, s.chain[k]);
      if k == |s.chain| - 1 then next == NULL else Succ(s, k, next.id) && next.id != 0
  {
    assert ChainInv(s, k);
    if k < |s.chain| - 1 { assert ChainInv(s, k + 1); }
  }

  lemma PushLoadTailKeepsInv<T>(s: State<T>, p: Tid, spurious: bool)
    requires Inv(s) && PcOf(s, p).PushLoadTail?
    ensures Inv(Next(s, p, Step(spurious)))
  {
    assert ThreadInv(s, p);
    QuietKeepsInv(s, p, PushLoadNext(PcOf(s, p).v, PcOf(s, p).n, s.tail), s.empties);
  }

  lemma PushLoadNextKeepsInv<T>(s: State<T>, p: Tid, spurious: bool)
    requires Inv(s) && PcOf(s, p).PushLoadNext?
    ensures Inv(Next(s, p, Step(spurious)))
  {
    assert ThreadInv(s, p);
    var pc := PcOf(s, p);
    if pc.tail.count == s.tail.count { LiveNext(s, pc.tail.count); }
    QuietKeepsInv(s, p, PushCheck(pc.v, pc.n, pc.tail, NextOf(s, pc.tail.id)), s.empties);
  }

  lemma PushCheckKeepsInv<T>(s: State<T>, p: Tid, spurious: bool)
    requires Inv(s) && PcOf(s, p).PushCheck?
    ensures Inv(Next(s, p, Step(spurious)))
  {
    assert ThreadInv(s, p);
    var pc := PcOf(s, p);
    if pc.tail != s.tail { QuietKeepsInv(s, p, PushLoadTail(pc.v, pc.n), s.empties); }
    else if pc.next.id == 0 { QuietKeepsInv(s, p, PushLink(pc.v, pc.n, pc.tail, pc.next), s.empties); }
    else { QuietKeepsInv(s, p, PushHelp(pc.v, pc.n, pc.tail, pc.next), s.empties); }
  }

  lemma PushStepKeepsInv<T>(s: State<T>, p: Tid, spurious: bool)
    requires Inv(s) && var pc := PcOf(s, p); pc.PushLink? || pc.PushHelp? || pc.PushSwing?
    ensures Inv(Next(s, p, Step(spurious)))
  {
    assert ThreadInv(s, p);
    match PcOf(s, p)
    case PushLink(v, n, tail, next) =>
      if spurious || NextOf(s, tail.id) != next { QuietKeepsInv(s, p, PushLoadTail(v, n), s.empties); }
      else { LinkKeepsInv(s, p, v, n, tail, next); }
    case PushHelp(v, n, tail, next) =>
      if spurious || s.tail != tail { QuietKeepsInv(s, p, PushLoadTail(v, n), s.empties); }
      else { TailKeepsInv(s, p, next.id, PushLoadTail(v, n)); }
    case PushSwing(n, tail) =>
      if spurious || s.tail != tail { QuietKeepsInv(s, p, PushEnd, s.empties); }
      else { TailKeepsInv(s, p, n, PushEnd); }
  }

  lemma PopCheckKeepsInv<T>(s: State<T>, p: Tid, since: nat, head: Ptr, tail: Ptr, next: Ptr, seen: nat, spurious: bool)
    requires Inv(s) && PcOf(s, p) == PopCheck(since, head, tail, next, seen)
    ensures Inv(Next(s, p, Step(spurious)))
  {
    assert ThreadInv(s, p);
    if head != s.head { QuietKeepsInv(s, p, PopLoadHead(since), s.empties); }
    else if head == tail {
      if next.id == 0 {
        var e := EmptyAnswer(since, seen, |s.past|);
        var s' := Recorded(s, Goto(s, p, PopEnd(None)).(empties := s.empties + [e]));
        forall x <- s.empties + [e] ensures EmptyInv(s', x) {
          if x in s.empties { assert EmptyInv(s, x); }
        }
        QuietKeepsInv(s, p, PopEnd(None), s.empties + [e]);
      } else { QuietKeepsInv(s, p, PopHelp(since, tail, next), s.empties); }
    } else { QuietKeepsInv(s, p, PopReadData(since, head, next), s.empties); }
  }

  ghost predicate Loading<T>(pc: Pc<T>) {
    pc.PopLoadHead? || pc.PopLoadTail? || pc.PopLoadNext?
  }

  lemma PopLoadKeepsInv<T>(s: State<T>, p: Tid, spurious: bool)
    requires Inv(s) && Loading(PcOf(s, p))
    ensures Inv(Next(s, p, Step(spurious)))
  {
    assert ThreadInv(s, p);
    match PcOf(s, p)
    case PopLoadHead(since) => QuietKeepsInv(s, p, PopLoadTail(since, s.head), s.empties);
    case PopLoadTail(since, head) => QuietKeepsInv(s, p, PopLoadNext(since, head, s.tail), s.empties);
    case PopLoadNext(since, head, tail) =>
      if head.count == s.head.count { LiveNext(s, head.count); }
      QuietKeepsInv(s, p, PopCheck(since, head, tail, NextOf(s, head.id), |s.past|), s.empties);
  }

  lemma PopHelpKeepsInv<T>(s: State<T>, p: Tid, spurious: bool)
    requires Inv(s) && PcOf(s, p).PopHelp?
    ensures Inv(Next(s, p, Step(spurious)))
  {
    assert ThreadInv(s, p);
    var pc := PcOf(s, p);
    if spurious || s.tail != pc.tail { QuietKeepsInv(s, p, PopLoadHead(pc.since), s.empties); }
    else { TailKeepsInv(s, p, pc.next.id, PopLoadHead(pc.since)); }
  }

  lemma PopReadKeepsInv<T>(s: State<T>, p: Tid, spurious: bool)
    requires Inv(s) && PcOf(s, p).PopReadData?
    ensures Inv(Next(s, p, Step(spurious)))
  {
    assert ThreadInv(s, p);
    var pc := PcOf(s, p);
    assert ChainInv(s, pc.head.count + 1);
    QuietKeepsInv(s, p, PopCas(pc.since, pc.head, pc.next, s.heap[pc.next.id].data), s.empties);
  }

  lemma PopCasKeepsInv<T>(s: State<T>, p: Tid, spurious: bool)
    requires Inv(s) && PcOf(s, p).PopCas?
    ensures Inv(Next(s, p, Step(spurious)))
  {
    assert ThreadInv(s, p);
    var pc := PcOf(s, p);
    if spurious || s.head != pc.head { QuietKeepsInv(s, p, PopLoadHead(pc.since), s.empties); }
    else { HeadKeepsInv(s, p, pc.since, pc.head, pc.next, pc.r); }
  }

  lemma FreeStepKeepsInv<T>(s: State<T>, p: Tid, spurious: bool)
    requires Inv(s) && Freeing(PcOf(s, p))
    ensures Inv(Next(s, p, Step(spurious)))
  {
    assert ThreadInv(s, p);
    match PcOf(s, p)
    case FreeLoad(head, r) => QuietKeepsInv(s, p, FreeStore(head, r, s.free), s.empties);
    case FreeStore(head, r, free) => StoreKeepsInv(s, p, head, r, free);
    case FreeCas(head, r, free) =>
      if spurious || s.free != free { QuietKeepsInv(s, p, FreeLoad(head, r), s.empties); }
      else { ReleaseKeepsInv(s, p, head, r, free); }
  }

  lemma ReturnKeepsInv<T>(s: State<T>, p: Tid, spurious: bool)
    requires Inv(s) && var pc := PcOf(s, p); pc.Idle? || pc.PushEnd? || pc.PopEnd?
    ensures Inv(Next(s, p, Step(spurious)))
  {
    QuietKeepsInv(s, p, Idle, s.empties);
  }

  lemma CallPushKeepsInv<T>(s: State<T>, p: Tid, v: T)
    requires Inv(s)
    ensures Inv(Next(s, p, CallPush(v)))
  {
    assert ThreadInv(s, p);
    QuietKeepsInv(s, p, if PcOf(s, p).Idle? then PushAlloc(v) else PcOf(s, p), s.empties);
  }

  lemma CallPopKeepsInv<T>(s: State<T>, p: Tid)
    requires Inv(s)
    ensures Inv(Next(s, p, CallPop))
  {
    assert ThreadInv(s, p);
    QuietKeepsInv(s, p, if PcOf(s, p).Idle? then PopLoadHead(|s.past|) else PcOf(s, p), s.empties);
  }

  lemma NextKeepsInv<T>(s: State<T>, p: Tid, a: Action<T>)
    requires Inv(s)
    ensures Inv(Next(s, p, a))
  {
    hide Inv, Next;
    var pc := PcOf(s, p);
    if a.CallPush? { CallPushKeepsInv(s, p, a.v); }
    else if a.CallPop? { CallPopKeepsInv(s, p); }
    else if pc.PushAlloc? { AllocKeepsInv(s, p, pc.v, a.spurious); }
    else if pc.PushLoadTail? { PushLoadTailKeepsInv(s, p, a.spurious); }
    else if pc.PushLoadNext? { PushLoadNextKeepsInv(s, p, a.spurious); }
    else if pc.PushCheck? { PushCheckKeepsInv(s, p, a.spurious); }
    else if Making(pc) || pc.PushSwing? { PushStepKeepsInv(s, p, a.spurious); }
    else if Loading(pc) { PopLoadKeepsInv(s, p, a.spurious); }
    else if Freeing(pc) { FreeStepKeepsInv(s, p, a.spurious); }
    else if pc.PopCheck? { PopCheckKeepsInv(s, p, pc.since, pc.head, pc.tail, pc.next, pc.seen, a.spurious); }
    else if pc.PopHelp? { PopHelpKeepsInv(s, p, a.spurious); }
    else if pc.PopReadData? { PopReadKeepsInv(s, p, a.spurious); }
    else if pc.PopCas? { PopCasKeepsInv(s, p, a.spurious); }
    else { ReturnKeepsInv(s, p, a.spurious); }
  }

  lemma {:induction false} RunKeepsInv<T>(s: State<T>, schedule: seq<(Tid, Action<T>)>)
    requires Inv(s)
    ensures Inv(Run(s, schedule))
    decreases |schedule|
  {
    if schedule == [] {
    } else {
      NextKeepsInv(s, schedule[0].0, schedule[0].1);
      RunKeepsInv(Next(s, schedule[0].0, schedule[0].1), schedule[1..]);
    }
  }

  // ----- what the invariant means ----------------------------------------------

  /** What one step does to the queue the list stands for. */
  ghost predicate Refines<T>(s: State<T>, p: Tid, s': State<T>) {
    var pc, pc' := PcOf(s, p), PcOf(s', p);
    if pc.PushLink? && pc'.PushSwing? then
      Abs(s') == Abs(s) + [pc.v] && s'.taken == s.taken
    else if pc.PopCas? && pc'.FreeLoad? then
      Abs(s) != [] && Abs(s') == Abs(s)[1..] && pc'.r == Abs(s)[0] && s'.taken == s.taken + [pc'.r]
    else
      && Abs(s') == Abs(s) && s'.taken == s.taken
      && (Freeing(pc) ==> if Freeing(pc') then pc'.r == pc.r else pc' == PopEnd(Some(pc.r)))
  }

  lemma LinkRefines<T>(s: State<T>, p: Tid, v: T, n: nat, tail: Ptr, next: Ptr, spurious: bool)
    requires Inv(s) && PcOf(s, p) == PushLink(v, n, tail, next)
    ensures Refines(s, p, Next(s, p, Step(spurious)))
  {
    if NextOf(s, tail.id) == next { LinkIsAtTheEnd(s, p, v, n, tail, next); }
    hide ChainInv, NodeInv, FateInv, PoolInv, ThreadInv, FreeInv, EmptyInv;
  }

  lemma HeadRefines<T>(s: State<T>, p: Tid, since: nat, head: Ptr, next: Ptr, r: T, spurious: bool)
    requires Inv(s) && PcOf(s, p) == PopCas(since, head, next, r)
    ensures Refines(s, p, Next(s, p, Step(spurious)))
  {
    assert ThreadInv(s, p);
    hide ChainInv, NodeInv, FateInv, PoolInv, FreeInv, EmptyInv;
  }

  lemma OtherStepRefines<T>(s: State<T>, p: Tid, a: Action<T>)
    requires Inv(s) && !PcOf(s, p).PushLink? && !PcOf(s, p).PopCas?
    ensures Refines(s, p, Next(s, p, a))
  {
    OtherStepLeavesQueue(s, p, a);
    if Freeing(PcOf(s, p)) { assert ThreadInv(s, p); FreeingKeepsResult(s, p, a); }
    hide Inv, ThreadInv, Move;
  }

  lemma PopMoveLeavesQueue<T>(s: State<T>, p: Tid, spurious: bool)
    requires !Freeing(PcOf(s, p)) && !PcOf(s, p).PopCas?
    ensures var s' := PopMove(s, p, spurious);
      s'.values == s.values && s'.taken == s.taken && s'.head == s.head && !PcOf(s', p).FreeLoad?
  {
  }

  lemma OtherStepLeavesQueue<T>(s: State<T>, p: Tid, a: Action<T>)
    requires !PcOf(s, p).PushLink? && !PcOf(s, p).PopCas?
    ensures var s' := Move(s, p, a);
      && s'.values == s.values && s'.taken == s.taken && s'.head == s.head
      && !(PcOf(s', p).FreeLoad? && !Freeing(PcOf(s, p)))
  {
    if !Freeing(PcOf(s, p)) && a.Step? { PopMoveLeavesQueue(s, p, a.spurious); }
    hide PopMove;
  }

  lemma FreeingKeepsResult<T>(s: State<T>, p: Tid, a: Action<T>)
    requires Freeing(PcOf(s, p)) && PcOf(s, p).head.count < |s.fate|
    ensures var pc, pc' := PcOf(s, p), PcOf(Move(s, p, a), p);
      if Freeing(pc') then pc'.r == pc.r else pc' == PopEnd(Some(pc.r))
  {
  }

  /**
    The machine refines a queue: the link exchange appends exactly the value of its push,
    the head exchange removes exactly the first value, which is the one its pop returns,
    and no other step changes the contents.
   */
  lemma StepRefinesQueue<T>(s: State<T>, p: Tid, a: Action<T>)
    requires Inv(s)
    ensures Inv(Next(s, p, a)) && Refines(s, p, Next(s, p, a))
  {
    NextKeepsInv(s, p, a);
    match PcOf(s, p)
    case PushLink(v, n, tail, next) => if a.Step? { LinkRefines(s, p, v, n, tail, next, a.spurious); }
    case PopCas(since, head, next, r) => if a.Step? { HeadRefines(s, p, since, head, next, r, a.spurious); }
    case _ => OtherStepRefines(s, p, a);
  }

  /** Conservation and order over whole runs: what was taken, then what is left, is what was linked. */
  lemma RunIsFifo<T>(blank: T, schedule: seq<(Tid, Action<T>)>)
    ensures var s := Run(Init(blank), schedule);
      && |s.values| > 0 && s.taken + Abs(s) == s.values[1..]
      && s.head.count <= s.tail.count < |s.chain| <= s.tail.count + 2
  {
    InitInv(blank);
    RunKeepsInv(Init(blank), schedule);
  }

  /** Every false answer of `pop` has a moment, between its call and its answer, when the queue was empty. */
  lemma FalseMeansEmpty<T>(blank: T, schedule: seq<(Tid, Action<T>)>, e: EmptyAnswer)
    requires e in Run(Init(blank), schedule).empties
    ensures var s := Run(Init(blank), schedule);
      e.since <= e.seen < e.until < |s.past| && s.past[e.seen] == []
  {
    InitInv(blank);
    RunKeepsInv(Init(blank), schedule);
    assert EmptyInv(Run(Init(blank), schedule), e);
  }

  /** The end pointer a thread is about to exchange, or to link behind. */
  function Stake<T>(pc: Pc<T>): Option<Ptr> {
    match pc
    case PushLink(_, _, tail, _) => Some(tail)
    case PushHelp(_, _, tail, _) => Some(tail)
    case PushSwing(_, tail) => Some(tail)
    case PopHelp(_, tail, _) => Some(tail)
    case PopCas(_, head, _, _) => Some(head)
    case _ => None
  }

  /**
    A stalled thread whose node has been dequeued, released or not, cannot succeed: its
    exchange changes neither end, links nothing, and writes no node.
   */
  lemma StaleExchangeFails<T>(s: State<T>, p: Tid, spurious: bool)
    requires Inv(s)
    requires var stake := Stake(PcOf(s, p)); stake.Some? && stake.value.count < s.head.count
    ensures var s' := Next(s, p, Step(spurious));
      s'.heap == s.heap && s'.head == s.head && s'.tail == s.tail && s'.chain == s.chain && s'.free == s.free
  {
    assert ThreadInv(s, p);
    match PcOf(s, p)
    case PushLink(v, n, tail, next) => assert ChainInv(s, tail.count);
    case _ =>
  }

  // ----- a step moves one thread ----------------------------------------------------

  ghost predicate MovesOnly<T>(s: State<T>, s': State<T>, p: Tid) {
    forall q: Tid :: q != p ==> PcOf(s', q) == PcOf(s, q)
  }

  lemma PushMovesOnly<T>(s: State<T>, p: Tid, spurious: bool)
    requires Making(PcOf(s, p))
    ensures MovesOnly(s, PushMove(s, p, spurious), p)
  {
  }

  lemma CheckMovesOnly<T>(s: State<T>, p: Tid, since: nat, head: Ptr, tail: Ptr, next: Ptr, seen: nat)
    ensures MovesOnly(s, Check(s, p, since, head, tail, next, seen), p)
  {
  }

  lemma ExchangeMovesOnly<T>(s: State<T>, p: Tid, since: nat, head: Ptr, next: Ptr, r: T, spurious: bool)
    ensures MovesOnly(s, AdvanceHead(s, p, since, head, next, r, spurious), p)
  {
  }

  lemma PopMovesOnly<T>(s: State<T>, p: Tid, spurious: bool)
    ensures MovesOnly(s, PopMove(s, p, spurious), p)
  {
    hide Check, AdvanceHead;
    match PcOf(s, p) {
      case PopCheck(since, head, tail, next, seen) => CheckMovesOnly(s, p, since, head, tail, next, seen);
      case PopCas(since, head, next, r) => ExchangeMovesOnly(s, p, since, head, next, r, spurious);
      case _ =>
    }
  }

  lemma FreeMovesOnly<T>(s: State<T>, p: Tid, spurious: bool)
    requires Freeing(PcOf(s, p))
    ensures MovesOnly(s, FreeMove(s, p, spurious), p)
  {
  }

  lemma StaysApart<T>(s: State<T>, p: Tid, a: Action<T>)
    ensures MovesOnly(s, Next(s, p, a), p)
  {
    hide PushMove, PopMove, FreeMove;
    if a.Step? {
      if Making(PcOf(s, p)) { PushMovesOnly(s, p, a.spurious); }
      if Freeing(PcOf(s, p)) { FreeMovesOnly(s, p, a.spurious); }
      PopMovesOnly(s, p, a.spurious);
    }
  }

  // ----- the destructor ----------------------------------------------------------

  /** The nodes a destructor loop deletes: it follows `next` from `id` until null. */
  function Walk<T>(s: State<T>, id: nat, steps: nat): seq<nat>
    decreases steps
  {
    if id == 0 || steps == 0 then [] else [id] + Walk(s, NextOf(s, id).id, steps - 1)
  }

  /** The pool from the last released node to the first. */
  function PoolAddresses<T>(s: State<T>, n: nat): seq<nat>
    requires n <= |s.freed|
  {
    if n == 0 then [] else [FreedAddress(s, n - 1)] + PoolAddresses(s, n - 1)
  }

  lemma {:induction false} WalkLive<T>(s: State<T>, k: nat, steps: nat)
    requires MemoryInv(s) && s.head.count <= k < |s.chain| && steps >= |s.chain| - k
    ensures Walk(s, s.chain[k], steps) == s.chain[k..]
    decreases steps
  {
    LiveNext(s, k);
    assert ChainInv(s, k);
    if k < |s.chain| - 1 {
      WalkLive(s, k + 1, steps - 1);
    } else {
      assert Walk(s, 0, steps - 1) == [];
    }
  }

  /** A released node leads to the one released before it. */
  lemma PoolLeads<T>(s: State<T>, n: nat)
    requires MemoryInv(s) && n < |s.freed|
    ensures FreedAddress(s, n) != 0 && NextOf(s, FreedAddress(s, n)).id == if n == 0 then 0 else FreedAddress(s, n - 1)
  {
    assert PoolInv(s, n) && ChainInv(s, s.freed[n]);
    hide FateInv, NodeInv, EmptyInv, FreeInv;
  }

  lemma {:induction false} WalkPool<T>(s: State<T>, n: nat, steps: nat)
    requires MemoryInv(s) && n <= |s.freed| && steps >= n
    ensures Walk(s, if n == 0 then 0 else FreedAddress(s, n - 1), steps) == PoolAddresses(s, n)
    decreases n
  {
    hide MemoryInv, FreedAddress, NextOf;
    if n == 0 {
    } else {
      PoolLeads(s, n - 1);
      WalkPool(s, n - 1, steps - 1);
    }
  }

  /** Node `id` is one of the first `n` released. */
  ghost predicate IsPooled<T>(s: State<T>, n: nat, id: nat)
    requires EndsInv(s)
  {
    && 0 < id < |s.heap| && s.heap[id].place.Linked? && s.heap[id].place.i < s.head.count
    && s.fate[s.heap[id].place.i].Freed? && s.fate[s.heap[id].place.i].i < n
  }

  lemma OneMorePooled<T>(s: State<T>, n: nat, id: nat)
    requires MemoryInv(s) && n < |s.freed|
    ensures IsPooled(s, n + 1, id) <==> IsPooled(s, n, id) || id == FreedAddress(s, n)
    ensures !IsPooled(s, n, FreedAddress(s, n))
  {
    assert PoolInv(s, n) && ChainInv(s, s.freed[n]);
    if 0 < id < |s.heap| { assert NodeInv(s, id); }
    if 0 < id < |s.heap| && s.heap[id].place.Linked? && s.heap[id].place.i < s.head.count {
      assert FateInv(s, s.heap[id].place.i);
    }
    hide EmptyInv, FreeInv;
  }

  lemma {:induction false} PoolHas<T>(s: State<T>, n: nat, id: nat)
    requires MemoryInv(s) && n <= |s.freed|
    ensures multiset(PoolAddresses(s, n))[id] == if IsPooled(s, n, id) then 1 else 0
  {
    hide ChainInv, NodeInv, FateInv, PoolInv, EmptyInv, FreeInv;
    if n == 0 {
    } else {
      PoolHas(s, n - 1, id);
      OneMorePooled(s, n - 1, id);
    }
  }

  lemma {:induction false} LiveHas<T>(s: State<T>, k: nat, id: nat)
    requires MemoryInv(s) && s.head.count <= k <= |s.chain|
    ensures multiset(s.chain[k..])[id] ==
      if 0 < id < |s.heap| && s.heap[id].place.Linked? && s.heap[id].place.i >= k then 1 else 0
    decreases |s.chain| - k
  {
    if 0 < id < |s.heap| { assert NodeInv(s, id); }
    if k == |s.chain| {
    } else {
      LiveHas(s, k + 1, id);
      assert ChainInv(s, k);
      assert s.chain[k..] == [s.chain[k]] + s.chain[k + 1..];
    }
  }

  /** With no call in flight every node is queued or pooled. */
  lemma AllNodesSettled<T>(s: State<T>, id: nat)
    requires MemoryInv(s) && 0 < id < |s.heap|
    requires forall p: Tid :: !Making(PcOf(s, p)) && !Freeing(PcOf(s, p))
    ensures s.heap[id].place.Linked?
    ensures s.heap[id].place.i < s.head.count ==>
      s.fate[s.heap[id].place.i].Freed? && s.fate[s.heap[id].place.i].i < |s.freed|
  {
    assert NodeInv(s, id);
    if s.heap[id].place.Linked? && s.heap[id].place.i < s.head.count {
      assert FateInv(s, s.heap[id].place.i);
    }
  }

  /**
    When no call is in flight, the two loops of the destructor delete every allocated
    node exactly once: no node is lost, and none is both queued and pooled.
   */
  lemma DestructorFreesEachNodeOnce<T>(s: State<T>, id: nat)
    requires Inv(s) && forall p: Tid :: !Making(PcOf(s, p)) && !Freeing(PcOf(s, p))
    ensures var deleted := Walk(s, s.head.id, |s.chain|) + Walk(s, s.free.id, |s.freed|);
      multiset(deleted)[id] == if 0 < id < |s.heap| then 1 else 0
  {
    WalkLive(s, s.head.count, |s.chain|);
    WalkPool(s, |s.freed|, |s.freed|);
    LiveHas(s, s.head.count, id);
    PoolHas(s, |s.freed|, id);
    if 0 < id < |s.heap| { AllNodesSettled(s, id); }
    hide ChainInv, NodeInv, FateInv, PoolInv, EmptyInv, ThreadInv, Walk, PoolAddresses, FreedAddress;
  }
}
