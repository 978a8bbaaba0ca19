/**
  The task manager as a machine over its shared accesses: group queues with a
  semaphore each, states with a queue and an ownership counter, the uncounted cache of
  each worker, and the global operation counter whose zero tells a waiting thread that
  all work has run.

  A queue is a bag here: a pop may take any element, and may answer false while a push
  to the same queue has not returned, which is what the ring promises.  Every operation
  has an identity; `ops` records, as history, where each one is and how often it ran.
 */
module TaskManager {
  import opened Common

  type OpId = nat
  type Gid = nat
  type Sid = nat

  const CACHE_SIZE: nat := 4

  /** Where an operation is. */
  datatype Place =
    | Staged(p: Tid)          // counted, about to be pushed on its group queue by `p`
    | Queued(g: Gid)
    | Carried(p: Tid)         // popped by `p`, about to be pushed on its state queue
    | InState(st: Sid)
    | Running(p: Tid)
    | Unretired(p: Tid)       // ran; its worker has not yet subtracted it from the counter
    | Retired
    | Cached(p: Tid)
    | CacheRunning(p: Tid)
    | Absorbed                // ran from a cache, never counted

  datatype Info = Info(group: Gid, state: Option<Sid>, place: Place, runs: nat)

  /** Progress of a call to `tu_tm_push_op`. */
  datatype Push = NotPushing | Counted(x: OpId, g: Gid) | Enqueued(g: Gid)

  /** Where a thread stands; `outer` and `inner` are its local operation counts. */
  datatype Pc =
    | Outside(push: Push)
    | Park
    | Acquire
    | CheckTerm
    | Unpark
    | Pop(outer: nat)
    | Run(x: OpId, outer: nat, push: Push)
    | StatePush(x: OpId, st: Sid, outer: nat)
    | StateAdd(st: Sid, outer: nat)
    | StatePop(st: Sid, outer: nat, inner: nat)
    | StateRun(x: OpId, st: Sid, outer: nat, inner: nat, push: Push)
    | StateSub(st: Sid, outer: nat, inner: nat)
    | CachePop(outer: nat)
    | CacheRun(x: OpId, outer: nat, push: Push)
    | Retire(outer: nat)
    | Exited

  /** A thread group: its queue, its semaphore, and whether shutdown has released it (history). */
  datatype Group = Group(queue: seq<OpId>, permits: nat, released: bool)

  /** `TU_TaskManagerStateContext`; `owner` is history: the thread that drains the state. */
  datatype Context = Context(queue: seq<OpId>, counter: nat, owner: Option<Tid>)

  datatype State = State(
    workers: map<Tid, Gid>,
    counter: int,                    // operation_counter
    groups: map<Gid, Group>,
    states: map<Sid, Context>,
    caches: map<Tid, seq<OpId>>,
    parked: set<Tid>,
    closing: set<Tid>,               // can_terminate flags
    pcs: map<Tid, Pc>,
    ops: seq<Info>)                  // history: every operation ever pushed

  datatype Action =
    | CallPush(g: Gid, st: Option<Sid>)      // tu_tm_push_op, tu_tm_push_state
    | CallPushTask(g: Gid)                   // tu_tm_push_task, inside an exec
    | Close(w: Tid)                          // group_fini: raise a worker's flag
    | ReleaseAll(g: Gid)                     // group_fini: release the shutdown permits
    | Step(pick: nat, miss: Option<Tid>)

  function PcOf(s: State, p: Tid): Pc {
    if p in s.pcs then s.pcs[p] else Outside(NotPushing)
  }

  function GroupOf(s: State, g: Gid): Group { if g in s.groups then s.groups[g] else Group([], 0, false) }
  function ContextOf(s: State, st: Sid): Context { if st in s.states then s.states[st] else Context([], 0, None) }
  function CacheOf(s: State, p: Tid): seq<OpId> { if p in s.caches then s.caches[p] else [] }
  function QueueOf(s: State, g: Gid): seq<OpId> { GroupOf(s, g).queue }
  function StateQueueOf(s: State, st: Sid): seq<OpId> { ContextOf(s, st).queue }

  function Workers(s: State, g: Gid): set<Tid> { set w | w in s.workers && s.workers[w] == g }

  function SetQueue(s: State, g: Gid, q: seq<OpId>): State { s.(groups := s.groups[g := GroupOf(s, g).(queue := q)]) }
  function SetPermits(s: State, g: Gid, n: nat): State { s.(groups := s.groups[g := GroupOf(s, g).(permits := n)]) }
  function SetContext(s: State, st: Sid, c: Context): State { s.(states := s.states[st := c]) }

  function Goto(s: State, p: Tid, pc: Pc): State { s.(pcs := s.pcs[p := pc]) }

  /** Records that operation `x` is now at `place`. */
  function MoveTo(s: State, x: OpId, place: Place): State {
    if x < |s.ops| then s.(ops := s.ops[x := s.ops[x].(place := place)]) else s
  }

  /** As `MoveTo`, for an operation whose exec starts. */
  function Start(s: State, x: OpId, place: Place): State {
    if x < |s.ops| then s.(ops := s.ops[x := s.ops[x].(place := place, runs := s.ops[x].runs + 1)]) else s
  }

  /** The call in progress of a thread that may push: outside the workers, or inside an exec. */
  function PushOf(pc: Pc): Push {
    if pc.Outside? || pc.Run? || pc.StateRun? || pc.CacheRun? then pc.push else NotPushing
  }

  predicate MayPush(pc: Pc) {
    (pc.Outside? || pc.Run? || pc.StateRun? || pc.CacheRun?) && pc.push.NotPushing?
  }

  function WithPush(pc: Pc, push: Push): Pc
    requires pc.Outside? || pc.Run? || pc.StateRun? || pc.CacheRun?
  {
    pc.(push := push)
  }

  /** After `tu_tm_start`: every worker is marked parked and about to enter its loop. */
  function Init(groups: set<Gid>, workers: map<Tid, Gid>): State {
    State(workers, 0, map g | g in groups :: Group([], 0, false), map[], map[], workers.Keys, {},
          map w | w in workers :: Park, [])
  }

  function RemoveAt(q: seq<OpId>, i: nat): seq<OpId>
    requires i < |q|
  {
    q[..i] + q[i + 1..]
  }

  function Next(s: State, p: Tid, a: Action): State {
    var pc := PcOf(s, p);
    match a
    case CallPush(g, st) => if MayPush(pc) && g in s.groups then CountNew(s, p, g, st) else s
    case CallPushTask(g) => if MayPush(pc) && p in s.workers && g in s.groups then PushTask(s, p, g) else s
    case Close(w) => if pc.Outside? && w in s.workers then s.(closing := s.closing + {w}) else s
    case ReleaseAll(g) =>
      if pc.Outside? && Workers(s, g) <= s.closing && !GroupOf(s, g).released then
        var r := GroupOf(s, g);
        s.(groups := s.groups[g := r.(released := true, permits := r.permits + |Workers(s, g)|)])
      else s
    case Step(pick, miss) =>
      match PushOf(pc)
      case Counted(x, g) => Enqueue(s, p, x, g)
      case Enqueued(g) => Goto(SetPermits(s, g, GroupOf(s, g).permits + 1), p, WithPush(pc, NotPushing))
      case NotPushing =>
        if pc.StatePush? || pc.StateAdd? || pc.StatePop? || pc.StateRun? || pc.StateSub? then
          StateMove(s, p, pick, miss)
        else if pc.CachePop? || pc.CacheRun? || pc.Run? || pc.Pop? || pc.Retire? then DrainMove(s, p, pick, miss)
        else SleepMove(s, p)
  }

  /** `tu_tm_push_op` up to its counter increment, for a new operation. */
  function CountNew(s: State, p: Tid, g: Gid, st: Option<Sid>): State
    requires MayPush(PcOf(s, p))
  {
    Goto(s, p, WithPush(PcOf(s, p), Counted(|s.ops|, g))).(
      counter := s.counter + 1, ops := s.ops + [Info(g, st, Staged(p), 0)])
  }

  /**
    `tu_tm_push_task`: into the worker's cache when the group is its own; a full cache
    gives up its oldest operation, which is then counted and pushed on the group queue.
   */
  function PushTask(s: State, p: Tid, g: Gid): State
    requires MayPush(PcOf(s, p)) && p in s.workers
  {
    if s.workers[p] != g then CountNew(s, p, g, None)
    else if |CacheOf(s, p)| < CACHE_SIZE then CacheNew(s, p, g)
    else CacheNew(Evict(s, p, g), p, g)
  }

  /** The loop of `worker_run` around the semaphore. */
  function SleepMove(s: State, p: Tid): State {
    var g := if p in s.workers then s.workers[p] else 0;
    match PcOf(s, p)
    case Park => Goto(s, p, Acquire).(parked := s.parked + {p})
    case Acquire =>
      if GroupOf(s, g).permits > 0 then Goto(SetPermits(s, g, GroupOf(s, g).permits - 1), p, CheckTerm) else s
    case CheckTerm => Goto(s, p, if p in s.closing then Exited else Unpark)
    case Unpark => Goto(s, p, Pop(0)).(parked := s.parked - {p})
    case _ => s
  }

  /** The group queue may answer false when empty, or while a push to it has not returned. */
  predicate MayMiss(s: State, g: Gid, miss: Option<Tid>) {
    QueueOf(s, g) == [] || (miss.Some? && PushOf(PcOf(s, miss.value)) == Enqueued(g))
  }

  /** `tu_tm_worker_process_operation_queue` and `worker_process_cache`. */
  function DrainMove(s: State, p: Tid, pick: nat, miss: Option<Tid>): State {
    var g := if p in s.workers then s.workers[p] else 0;
    match PcOf(s, p)
    case Pop(outer) =>
      if MayMiss(s, g, miss) then Goto(s, p, Retire(outer)) else TakeQueued(s, p, g, pick % |QueueOf(s, g)|, outer)
    case Run(x, outer, _) => EndExec(s, p, x, Unretired(p), CachePop(outer + 1))
    case CachePop(outer) => if CacheOf(s, p) == [] then Goto(s, p, Pop(outer)) else TakeCached(s, p, outer)
    case CacheRun(x, outer, _) => EndExec(s, p, x, Absorbed, CachePop(outer))
    case Retire(outer) => RetireCount(s, p, outer)
    case _ => s
  }

  /** A popped operation is run at once, or carried to the queue of its state. */
  function TakeQueued(s: State, p: Tid, g: Gid, i: nat, outer: nat): State
    requires i < |QueueOf(s, g)|
  {
    var x := QueueOf(s, g)[i];
    var s1 := SetQueue(s, g, RemoveAt(QueueOf(s, g), i));
    if x < |s.ops| && s.ops[x].state.Some? then Carry(s1, p, x, s.ops[x].state.value, outer)
    else RunNow(s1, p, x, outer)
  }

  function Carry(s: State, p: Tid, x: OpId, st: Sid, outer: nat): State {
    Goto(MoveTo(s, x, Carried(p)), p, StatePush(x, st, outer))
  }

  function RunNow(s: State, p: Tid, x: OpId, outer: nat): State {
    Goto(Start(s, x, Running(p)), p, Run(x, outer, NotPushing))
  }

  /** The cache is popped at its newest end. */
  function TakeCached(s: State, p: Tid, outer: nat): State
    requires CacheOf(s, p) != []
  {
    var c := CacheOf(s, p);
    var x := c[|c| - 1];
    Goto(Start(s, x, CacheRunning(p)), p, CacheRun(x, outer, NotPushing)).(caches := s.caches[p := c[..|c| - 1]])
  }

  /** The whole local count is subtracted at once. */
  function RetireCount(s: State, p: Tid, outer: nat): State {
    Goto(s, p, Park).(counter := s.counter - outer, ops := RetireAll(s.ops, p))
  }

  function RetireAll(ops: seq<Info>, p: Tid): (r: seq<Info>)
    ensures |r| == |ops|
    ensures forall x: nat | x < |ops| ::
      r[x] == if ops[x].place == Unretired(p) then ops[x].(place := Retired) else ops[x]
  {
    if ops == [] then []
    else
      var o := ops[|ops| - 1];
      RetireAll(ops[..|ops| - 1], p) + [if o.place == Unretired(p) then o.(place := Retired) else o]
  }

  /** `tu_tm_worker_process_operation` for an operation that belongs to a state. */
  function StateMove(s: State, p: Tid, pick: nat, miss: Option<Tid>): State {
    match PcOf(s, p)
    case StatePush(x, st, outer) => PushState(s, p, x, st, outer)
    case StateAdd(st, outer) => AddState(s, p, st, outer)
    case StatePop(st, outer, inner) =>
      if StateQueueOf(s, st) == [] || miss.Some? then s        // yield and try again
      else TakeState(s, p, st, outer, inner, pick % |StateQueueOf(s, st)|)
    case StateRun(x, st, outer, inner, _) => EndExec(s, p, x, Unretired(p), StateSub(st, outer, inner + 1))
    case StateSub(st, outer, inner) => SubState(s, p, st, outer, inner)
    case _ => s
  }

  function RunAll(s: State, schedule: seq<(Tid, Action)>): State
    decreases |schedule|
  {
    if schedule == [] then s
    else RunAll(Next(s, schedule[0].0, schedule[0].1), schedule[1..])
  }

  // ----- invariant: where every operation is ------------------------------------

  /** Places held in a shared bag or in a worker's cache. */
  predicate InBag(pl: Place) { pl.Queued? || pl.InState? || pl.Cached? }

  function BagOf(s: State, pl: Place): multiset<OpId> {
    match pl
    case Queued(g) => multiset(QueueOf(s, g))
    case InState(st) => multiset(StateQueueOf(s, st))
    case Cached(p) => multiset(CacheOf(s, p))
    case _ => multiset{}
  }

  ghost predicate At(ops: seq<Info>, x: OpId, pl: Place) {
    x < |ops| && ops[x].place == pl
  }

  /** Every bag holds exactly the operations recorded in it, each once. */
  ghost predicate BagInv(s: State) {
    forall pl: Place, x: OpId | InBag(pl) :: BagOf(s, pl)[x] == if At(s.ops, x, pl) then 1 else 0
  }

  predicate Ran(pl: Place) {
    pl.Running? || pl.Unretired? || pl.Retired? || pl.CacheRunning? || pl.Absorbed?
  }

  /** An operation that a thread holds is the one in that thread's hands. */
  ghost predicate OpInv(s: State, x: OpId)
    requires x < |s.ops|
  {
    var o := s.ops[x];
    && o.runs == (if Ran(o.place) then 1 else 0)
    && match o.place
       case Staged(p) => PushOf(PcOf(s, p)) == Counted(x, o.group)
       case Queued(g) => o.group == g
       case Carried(p) => PcOf(s, p).StatePush? && PcOf(s, p).x == x && o.state == Some(PcOf(s, p).st)
       case InState(st) => o.state == Some(st)
       case Running(p) =>
         var pc := PcOf(s, p);
         (pc.Run? && pc.x == x && o.state == None) || (pc.StateRun? && pc.x == x && o.state == Some(pc.st))
       case Cached(p) => o.state == None && p in s.workers && s.workers[p] == o.group
       case CacheRunning(p) => o.state == None && PcOf(s, p).CacheRun? && PcOf(s, p).x == x
       case _ => true
  }

  // ----- invariant: counting -----------------------------------------------------

  /** Counted by `operation_counter` and not yet subtracted from it. */
  predicate Counting(pl: Place) {
    !pl.Cached? && !pl.CacheRunning? && !pl.Absorbed? && !pl.Retired?
  }

  function Pending(ops: seq<Info>): set<OpId> { set x: OpId | x < |ops| && Counting(ops[x].place) }

  function UnretiredBy(ops: seq<Info>, p: Tid): set<OpId> { set x: OpId | x < |ops| && ops[x].place == Unretired(p) }

  /** The operations a worker has run and will subtract. */
  function LocalCount(pc: Pc): nat {
    match pc
    case Pop(outer) => outer
    case Run(_, outer, _) => outer
    case StatePush(_, _, outer) => outer
    case StateAdd(_, outer) => outer
    case StatePop(_, outer, inner) => outer + inner
    case StateRun(_, _, outer, inner, _) => outer + inner
    case StateSub(_, outer, inner) => outer + inner
    case CachePop(outer) => outer
    case CacheRun(_, outer, _) => outer
    case Retire(outer) => outer
    case _ => 0
  }

  ghost predicate CountInv(s: State) { s.counter == |Pending(s.ops)| }

  // ----- invariant: state ownership ------------------------------------------------

  predicate Draining(pc: Pc, st: Sid) {
    (pc.StatePop? || pc.StateRun? || pc.StateSub?) && pc.st == st
  }

  /** Threads that pushed on the state queue and have not incremented its counter. */
  function Adders(s: State, st: Sid): set<Tid> {
    set p | p in s.pcs && s.pcs[p].StateAdd? && s.pcs[p].st == st
  }

  /** The owner has popped an operation and not yet decremented the counter. */
  predicate Popped(s: State, st: Sid) {
    var owner := ContextOf(s, st).owner;
    owner.Some? && !PcOf(s, owner.value).StatePop?
  }

  ghost predicate StateInv(s: State, st: Sid) {
    var c := ContextOf(s, st);
    && (c.owner.Some? <==> c.counter > 0)
    && (c.owner.Some? ==> Draining(PcOf(s, c.owner.value), st))
    && |c.queue| + Unit(Popped(s, st)) == c.counter + |Adders(s, st)|
  }

  // ----- invariant: threads ----------------------------------------------------------

  ghost predicate HandsInv(s: State, p: Tid) {
    var pc := PcOf(s, p);
    && (p in s.workers <==> !pc.Outside?)
    && (PushOf(pc).Counted? ==> At(s.ops, PushOf(pc).x, Staged(p)) && s.ops[PushOf(pc).x].group == PushOf(pc).g)
    && (pc.Run? ==> At(s.ops, pc.x, Running(p)))
    && (pc.StatePush? ==> At(s.ops, pc.x, Carried(p)) && s.ops[pc.x].state == Some(pc.st))
    && (pc.StateRun? ==> At(s.ops, pc.x, Running(p)))
    && (pc.CacheRun? ==> At(s.ops, pc.x, CacheRunning(p)) && pc.outer >= 1)
    && (pc.StateSub? ==> pc.inner >= 1)
    && (pc.StatePop? || pc.StateRun? || pc.StateSub? ==> ContextOf(s, pc.st).owner == Some(p))
  }

  /** A worker with cached operations has run a counted one that it has not retired. */
  ghost predicate CacheInv(s: State, p: Tid) {
    var pc := PcOf(s, p);
    && |CacheOf(s, p)| <= CACHE_SIZE
    && (CacheOf(s, p) != [] ==> LocalCount(pc) >= 1 || pc.Run? || pc.StateRun?)
    && (pc.Pop? || pc.Retire? ==> CacheOf(s, p) == [])
  }

  ghost predicate ThreadInv(s: State, p: Tid) {
    && HandsInv(s, p) && CacheInv(s, p)
    && LocalCount(PcOf(s, p)) == |UnretiredBy(s.ops, p)|
  }

  ghost predicate Inv(s: State) {
    && BagInv(s) && CountInv(s)
    && (forall x: OpId | x < |s.ops| :: OpInv(s, x))
    && (forall p: Tid :: ThreadInv(s, p))
    && (forall st: Sid :: StateInv(s, st))
  }

  // ----- what the invariant means -------------------------------------------------------

  /**
    Quiescence: when `operation_counter` is zero, every operation ever pushed, cached ones
    included, has run exactly once; all queues, caches and state counters are empty.
   */
  lemma ZeroMeansQuiescent(s: State)
    requires Inv(s) && s.counter == 0
    ensures forall x: OpId | x < |s.ops| :: s.ops[x].runs == 1 && (s.ops[x].place.Retired? || s.ops[x].place.Absorbed?)
    ensures forall g: Gid :: QueueOf(s, g) == []
    ensures forall st: Sid :: StateQueueOf(s, st) == [] && ContextOf(s, st).counter == 0
    ensures forall p: Tid :: CacheOf(s, p) == [] && !PcOf(s, p).Run? && !PcOf(s, p).StateRun? && !PcOf(s, p).CacheRun?
  {
    NothingCounts(s);
    forall p: Tid ensures CacheOf(s, p) == [] && !PcOf(s, p).StateSub? && !PcOf(s, p).Run? && !PcOf(s, p).StateRun?
      && !PcOf(s, p).CacheRun? {
      NothingInHand(s, p);
    }
    forall x: OpId | x < |s.ops|
      ensures s.ops[x].runs == 1 && (s.ops[x].place.Retired? || s.ops[x].place.Absorbed?) {
      OpIsOver(s, x);
    }
    forall g: Gid ensures QueueOf(s, g) == [] {
      assert forall x: OpId :: BagOf(s, Queued(g))[x] == 0;
      EmptyBag(QueueOf(s, g));
    }
    forall st: Sid ensures StateQueueOf(s, st) == [] && ContextOf(s, st).counter == 0 {
      assert StateInv(s, st);
      assert forall x: OpId :: BagOf(s, InState(st))[x] == 0;
      EmptyBag(StateQueueOf(s, st));
    }
    hide ThreadInv, OpInv, CountInv;
  }

  lemma NothingCounts(s: State)
    requires CountInv(s) && s.counter == 0
    ensures forall x: OpId | x < |s.ops| :: !Counting(s.ops[x].place)
  {
    assert Pending(s.ops) == {};
    forall x: OpId | x < |s.ops| ensures !Counting(s.ops[x].place) {
      assert x !in Pending(s.ops);
    }
  }

  lemma NothingInHand(s: State, p: Tid)
    requires ThreadInv(s, p) && forall x: OpId | x < |s.ops| :: !Counting(s.ops[x].place)
    ensures CacheOf(s, p) == [] && !PcOf(s, p).StateSub? && !PcOf(s, p).Run? && !PcOf(s, p).StateRun?
            && !PcOf(s, p).CacheRun?
  {
    assert UnretiredBy(s.ops, p) == {};
  }

  lemma OpIsOver(s: State, x: OpId)
    requires BagInv(s) && x < |s.ops| && OpInv(s, x) && !Counting(s.ops[x].place)
    requires forall p: Tid :: CacheOf(s, p) == [] && !PcOf(s, p).CacheRun?
    ensures s.ops[x].runs == 1 && (s.ops[x].place.Retired? || s.ops[x].place.Absorbed?)
  {
    assert forall p: Tid :: BagOf(s, Cached(p))[x] == 0;
  }

  lemma EmptyBag(q: seq<OpId>)
    requires forall x: OpId :: multiset(q)[x] == 0
    ensures q == []
  {
    assert q != [] ==> multiset(q)[q[0]] > 0;
  }

  // ----- one operation moves -------------------------------------------------------------

  /** `s'` has operation `x` somewhere else, and one more when `x` is new. */
  ghost predicate Moved(s: State, s': State, x: OpId) {
    && x < |s'.ops| && |s.ops| <= |s'.ops| <= |s.ops| + 1 && (|s'.ops| > |s.ops| ==> x == |s.ops|)
    && (forall y: OpId | y < |s.ops| && y != x :: s'.ops[y] == s.ops[y])
  }

  /** Where `x` was; a new operation was nowhere, which counts as absorbed. */
  function From(s: State, x: OpId): Place {
    if x < |s.ops| then s.ops[x].place else Absorbed
  }

  function Unit(b: bool): nat { if b then 1 else 0 }

  /** A bag after `x` left it or came to it. */
  ghost predicate BagMoves(b: multiset<OpId>, b': multiset<OpId>, x: OpId, left: bool, came: bool) {
    forall y: OpId :: b'[y] + Unit(y == x && left) == b[y] + Unit(y == x && came)
  }

  lemma SameBag(b: multiset<OpId>, x: OpId)
    ensures BagMoves(b, b, x, false, false)
  {
  }

  lemma AddToBag(q: seq<OpId>, x: OpId)
    ensures BagMoves(multiset(q), multiset(q + [x]), x, false, true)
  {
  }

  lemma TakeFromBag(q: seq<OpId>, i: nat)
    requires i < |q|
    ensures BagMoves(multiset(q), multiset(RemoveAt(q, i)), q[i], true, false)
  {
    assert q == q[..i] + [q[i]] + q[i + 1..];
  }

  lemma TakeLastFromBag(q: seq<OpId>)
    requires q != []
    ensures BagMoves(multiset(q), multiset(q[..|q| - 1]), q[|q| - 1], true, false)
  {
    TakeFromBag(q, |q| - 1);
    assert RemoveAt(q, |q| - 1) == q[..|q| - 1];
  }

  lemma TakeFirstFromBag(q: seq<OpId>)
    requires q != []
    ensures BagMoves(multiset(q), multiset(q[1..]), q[0], true, false)
  {
    TakeFromBag(q, 0);
    assert RemoveAt(q, 0) == q[1..];
  }

  /** The bags follow the operation. */
  ghost predicate BagsFollow(s: State, s': State, x: OpId)
    requires Moved(s, s', x)
  {
    forall pl: Place | InBag(pl) ::
      BagMoves(BagOf(s, pl), BagOf(s', pl), x, From(s, x) == pl, s'.ops[x].place == pl)
  }

  /** Only the queue or cache at `at` changes. */
  ghost predicate OneQueueChanges(s: State, s': State, at: Place) {
    && (forall g: Gid | Queued(g) != at :: QueueOf(s', g) == QueueOf(s, g))
    && (forall st: Sid | InState(st) != at :: StateQueueOf(s', st) == StateQueueOf(s, st))
    && (forall p: Tid | Cached(p) != at :: CacheOf(s', p) == CacheOf(s, p))
  }

  lemma OtherBag(s: State, s': State, at: Place, pl: Place)
    requires OneQueueChanges(s, s', at) && InBag(pl) && pl != at
    ensures BagOf(s', pl) == BagOf(s, pl)
  {
  }

  lemma OneBagFollows(s: State, s': State, x: OpId, at: Place)
    requires Moved(s, s', x) && OneQueueChanges(s, s', at)
    requires InBag(From(s, x)) ==> From(s, x) == at
    requires InBag(s'.ops[x].place) ==> s'.ops[x].place == at
    requires InBag(at) ==> BagMoves(BagOf(s, at), BagOf(s', at), x, From(s, x) == at, s'.ops[x].place == at)
    ensures BagsFollow(s, s', x)
  {
    hide BagMoves, BagOf, OneQueueChanges;
    forall pl: Place | InBag(pl)
      ensures BagMoves(BagOf(s, pl), BagOf(s', pl), x, From(s, x) == pl, s'.ops[x].place == pl)
    {
      if pl != at { OtherBag(s, s', at, pl); SameBag(BagOf(s, pl), x); }
    }
  }

  lemma BagsKeepInv(s: State, s': State, x: OpId)
    requires BagInv(s) && Moved(s, s', x) && BagsFollow(s, s', x)
    ensures BagInv(s')
  {
    hide BagOf;
    forall pl: Place, y: OpId | InBag(pl) ensures BagOf(s', pl)[y] == if At(s'.ops, y, pl) then 1 else 0 {
      assert BagOf(s, pl)[y] == if At(s.ops, y, pl) then 1 else 0;
      assert BagMoves(BagOf(s, pl), BagOf(s', pl), x, From(s, x) == pl, s'.ops[x].place == pl);
    }
  }

  lemma SizesDiffer(a: set<OpId>, b: set<OpId>, x: OpId)
    requires a - {x} == b - {x}
    ensures |b| == |a| - Unit(x in a) + Unit(x in b)
  {
    assert |a| == |a - {x}| + Unit(x in a);
    assert |b| == |b - {x}| + Unit(x in b);
  }

  lemma PendingMoves(s: State, s': State, x: OpId)
    requires Moved(s, s', x)
    ensures |Pending(s'.ops)| == |Pending(s.ops)| - Unit(Counting(From(s, x))) + Unit(Counting(s'.ops[x].place))
  {
    var a, b := Pending(s.ops), Pending(s'.ops);
    assert a - {x} == b - {x};
    SizesDiffer(a, b, x);
  }

  lemma UnretiredMoves(s: State, s': State, x: OpId, p: Tid)
    requires Moved(s, s', x)
    ensures |UnretiredBy(s'.ops, p)| ==
      |UnretiredBy(s.ops, p)| - Unit(From(s, x) == Unretired(p)) + Unit(s'.ops[x].place == Unretired(p))
  {
    var a, b := UnretiredBy(s.ops, p), UnretiredBy(s'.ops, p);
    assert a - {x} == b - {x};
    SizesDiffer(a, b, x);
  }

  /** Places in the hands or the cache of one thread. */
  predicate Private(pl: Place, p: Tid) {
    || pl == Staged(p) || pl == Carried(p) || pl == Running(p) || pl == CacheRunning(p) || pl == Unretired(p)
    || pl == Cached(p)
  }

  /** A step of `p` leaves the threads, caches and ownerships of the others alone. */
  ghost predicate OthersSame(s: State, s': State, p: Tid) {
    && s'.workers == s.workers
    && (forall q: Tid | q != p :: PcOf(s', q) == PcOf(s, q) && CacheOf(s', q) == CacheOf(s, q))
    && (forall st: Sid, q: Tid | q != p && ContextOf(s, st).owner == Some(q) :: ContextOf(s', st).owner == Some(q))
  }

  lemma OthersKeep(s: State, s': State, p: Tid, x: OpId)
    requires OthersSame(s, s', p) && Moved(s, s', x)
    requires forall q: Tid | q != p :: !Private(From(s, x), q) && !Private(s'.ops[x].place, q)
    requires forall q: Tid :: ThreadInv(s, q)
    ensures forall q: Tid | q != p :: ThreadInv(s', q)
  {
    forall q: Tid | q != p ensures ThreadInv(s', q) {
      assert ThreadInv(s, q) && !Private(From(s, x), q) && !Private(s'.ops[x].place, q);
      UnretiredMoves(s, s', x, q);
    }
  }

  /** If the thread held `y`, it still holds it the same way. */
  ghost predicate StillHolds(pc: Pc, pc': Pc, y: OpId) {
    && (PushOf(pc).Counted? && PushOf(pc).x == y ==> PushOf(pc') == PushOf(pc))
    && (pc.Run? && pc.x == y ==> pc'.Run? && pc'.x == y)
    && (pc.CacheRun? && pc.x == y ==> pc'.CacheRun? && pc'.x == y)
    && (pc.StatePush? && pc.x == y ==> pc'.StatePush? && pc'.x == y && pc'.st == pc.st)
    && (pc.StateRun? && pc.x == y ==> pc'.StateRun? && pc'.x == y && pc'.st == pc.st)
  }

  lemma OpKeeps(s: State, s': State, p: Tid, y: OpId)
    requires y < |s.ops| && y < |s'.ops| && s'.ops[y] == s.ops[y]
    requires s'.workers == s.workers && StillHolds(PcOf(s, p), PcOf(s', p), y)
    requires forall q: Tid | q != p :: PcOf(s', q) == PcOf(s, q)
    requires OpInv(s, y)
    ensures OpInv(s', y)
  {
  }

  /** The thread plays the same part in every state protocol. */
  ghost predicate SameRole(pc: Pc, pc': Pc) {
    && (pc.StateAdd? || pc'.StateAdd? ==> pc' == pc)
    && (pc.StatePop? || pc.StateRun? || pc.StateSub? ==>
          (pc'.StatePop? || pc'.StateRun? || pc'.StateSub?) && pc'.st == pc.st && (pc'.StatePop? <==> pc.StatePop?))
  }

  predicate IsAdder(pc: Pc, st: Sid) { pc.StateAdd? && pc.st == st }

  lemma AddersChange(s: State, s': State, p: Tid, st: Sid)
    requires forall q: Tid | q != p :: PcOf(s', q) == PcOf(s, q)
    ensures |Adders(s', st)| == |Adders(s, st)| - Unit(IsAdder(PcOf(s, p), st)) + Unit(IsAdder(PcOf(s', p), st))
  {
    var a, b := Adders(s, st), Adders(s', st);
    assert forall q: Tid :: q in a <==> IsAdder(PcOf(s, q), st);
    assert forall q: Tid :: q in b <==> IsAdder(PcOf(s', q), st);
    assert a - {p} == b - {p};
    SizesDiffer(a, b, p);
  }

  lemma StatesKeep(s: State, s': State, p: Tid)
    requires s'.states == s.states
    requires forall q: Tid | q != p :: PcOf(s', q) == PcOf(s, q)
    requires SameRole(PcOf(s, p), PcOf(s', p))
    requires forall st: Sid :: StateInv(s, st)
    ensures forall st: Sid :: StateInv(s', st)
  {
    forall st: Sid ensures StateInv(s', st) {
      assert StateInv(s, st);
      AddersChange(s, s', p, st);
      hide Adders;
    }
  }

  /** A step of `p` that moves `x` keeps the invariant once its own obligations are met. */
  lemma MoveKeepsInv(s: State, s': State, p: Tid, x: OpId)
    requires Inv(s) && Moved(s, s', x) && BagsFollow(s, s', x) && OthersSame(s, s', p)
    requires forall q: Tid | q != p :: !Private(From(s, x), q) && !Private(s'.ops[x].place, q)
    requires forall y: OpId | y != x :: StillHolds(PcOf(s, p), PcOf(s', p), y)
    requires HandsInv(s', p) && CacheInv(s', p)
    requires LocalCount(PcOf(s', p)) ==
      LocalCount(PcOf(s, p)) - Unit(From(s, x) == Unretired(p)) + Unit(s'.ops[x].place == Unretired(p))
    requires s'.counter == s.counter - Unit(Counting(From(s, x))) + Unit(Counting(s'.ops[x].place))
    requires OpInv(s', x)
    requires forall st: Sid :: StateInv(s', st)
    ensures Inv(s')
  {
    assert ThreadInv(s, p);
    hide HandsInv, CacheInv, StateInv, OpInv, StillHolds, OthersSame, BagsFollow, Moved, LocalCount;
    BagsKeepInv(s, s', x);
    PendingMoves(s, s', x);
    UnretiredMoves(s, s', x, p);
    OpsMoveInv(s, s', p, x);
    assert ThreadInv(s', p);
    ThreadsMoveInv(s, s', p, x);
  }

  lemma OpsMoveInv(s: State, s': State, p: Tid, x: OpId)
    requires Moved(s, s', x) && OthersSame(s, s', p)
    requires forall y: OpId | y != x :: StillHolds(PcOf(s, p), PcOf(s', p), y)
    requires forall y: OpId | y < |s.ops| :: OpInv(s, y)
    requires OpInv(s', x)
    ensures forall y: OpId | y < |s'.ops| :: OpInv(s', y)
  {
    hide OpInv;
    forall y: OpId | y < |s'.ops| ensures OpInv(s', y) {
      if y != x { OpKeeps(s, s', p, y); }
    }
  }

  lemma ThreadsMoveInv(s: State, s': State, p: Tid, x: OpId)
    requires Moved(s, s', x) && OthersSame(s, s', p)
    requires forall q: Tid | q != p :: !Private(From(s, x), q) && !Private(s'.ops[x].place, q)
    requires forall q: Tid :: ThreadInv(s, q)
    requires ThreadInv(s', p)
    ensures forall q: Tid :: ThreadInv(s', q)
  {
    OthersKeep(s, s', p, x);
  }

  /** Steps that move no operation. */
  ghost predicate Unmoved(s: State, s': State, p: Tid) {
    && s'.ops == s.ops && s'.counter == s.counter
    && (forall g: Gid :: QueueOf(s', g) == QueueOf(s, g))
    && (forall st: Sid :: StateQueueOf(s', st) == StateQueueOf(s, st)) && s'.caches == s.caches
    && OthersSame(s, s', p)
    && (forall y: OpId :: StillHolds(PcOf(s, p), PcOf(s', p), y))
    && HandsInv(s', p) && CacheInv(s', p) && LocalCount(PcOf(s', p)) == LocalCount(PcOf(s, p))
  }

  lemma UnmovedKeepsInv(s: State, s': State, p: Tid)
    requires Inv(s) && Unmoved(s, s', p)
    requires forall st: Sid :: StateInv(s', st)
    ensures Inv(s')
  {
    hide StateInv, OpInv, HandsInv, CacheInv, LocalCount, StillHolds;
    forall y: OpId | y < |s.ops| ensures OpInv(s', y) { OpKeeps(s, s', p, y); }
    UnmovedThreads(s, s', p);
    forall pl: Place ensures BagOf(s', pl) == BagOf(s, pl) {}
  }

  lemma UnmovedThreads(s: State, s': State, p: Tid)
    requires Unmoved(s, s', p)
    requires forall q: Tid :: ThreadInv(s, q)
    ensures forall q: Tid :: ThreadInv(s', q)
  {
    hide StillHolds, LocalCount;
    forall q: Tid ensures ThreadInv(s', q) { assert ThreadInv(s, q); }
  }

  lemma QuietKeepsInv(s: State, s': State, p: Tid)
    requires Inv(s) && Unmoved(s, s', p) && StatesAlone(s, s', p)
    ensures Inv(s')
  {
    assert forall st: Sid :: StateInv(s', st) by { hide HandsInv, CacheInv, StillHolds; StatesKeep(s, s', p); }
    hide StateInv, Unmoved, StatesAlone, Inv;
    UnmovedKeepsInv(s, s', p);
  }

  /** The step leaves the state protocols alone. */
  ghost predicate StatesAlone(s: State, s': State, p: Tid) {
    && s'.states == s.states && SameRole(PcOf(s, p), PcOf(s', p))
  }

  // ----- every step keeps the invariant ----------------------------------------------------

  lemma InitInv(groups: set<Gid>, workers: map<Tid, Gid>)
    ensures Inv(Init(groups, workers))
  {
  }

  /** What a step of `p` that moves `x` owes besides the bags and the states. */
  ghost predicate Duties(s: State, s': State, p: Tid, x: OpId)
    requires Moved(s, s', x)
  {
    var pc, pc' := PcOf(s, p), PcOf(s', p);
    && OthersSame(s, s', p)
    && (forall q: Tid | q != p :: !Private(From(s, x), q) && !Private(s'.ops[x].place, q))
    && (forall y: OpId | y != x :: StillHolds(pc, pc', y))
    && LocalCount(pc') == LocalCount(pc) - Unit(From(s, x) == Unretired(p)) + Unit(s'.ops[x].place == Unretired(p))
    && s'.counter == s.counter - Unit(Counting(From(s, x))) + Unit(Counting(s'.ops[x].place))
    && HandsInv(s', p) && CacheInv(s', p) && OpInv(s', x)
  }

  lemma PlainMoveKeepsInv(s: State, s': State, p: Tid, x: OpId)
    requires Inv(s) && Moved(s, s', x) && BagsFollow(s, s', x)
    requires Duties(s, s', p, x) && StatesAlone(s, s', p)
    ensures Inv(s')
  {
    assert forall st: Sid :: StateInv(s', st) by { hide BagsFollow, Moved, HandsInv, CacheInv; StatesKeep(s, s', p); }
    StateMoveKeepsInv(s, s', p, x);
  }

  lemma StateMoveKeepsInv(s: State, s': State, p: Tid, x: OpId)
    requires Inv(s) && Moved(s, s', x) && BagsFollow(s, s', x) && Duties(s, s', p, x)
    requires forall st: Sid :: StateInv(s', st)
    ensures Inv(s')
  {
    assert ThreadInv(s, p);
    hide Inv, StateInv, BagsFollow, Moved, HandsInv, CacheInv, OpInv, StillHolds, OthersSame;
    MoveKeepsInv(s, s', p, x);
  }

  // A call to tu_tm_push_op: count, push, release.

  lemma CountNewDuties(s: State, p: Tid, g: Gid, st: Option<Sid>)
    requires ThreadInv(s, p) && MayPush(PcOf(s, p))
    ensures var s' := CountNew(s, p, g, st);
      Moved(s, s', |s.ops|) && Duties(s, s', p, |s.ops|) && StatesAlone(s, s', p)
  {
  }

  lemma CountNewBags(s: State, p: Tid, g: Gid, st: Option<Sid>)
    requires MayPush(PcOf(s, p))
    ensures var s' := CountNew(s, p, g, st); Moved(s, s', |s.ops|) && BagsFollow(s, s', |s.ops|)
  {
    hide BagMoves, BagsFollow;
    OneBagFollows(s, CountNew(s, p, g, st), |s.ops|, Staged(p));
  }

  /** The push of a counted operation on its group queue. */
  function Enqueue(s: State, p: Tid, x: OpId, g: Gid): State
    requires PushOf(PcOf(s, p)) == Counted(x, g)
  {
    Goto(SetQueue(MoveTo(s, x, Queued(g)), g, QueueOf(s, g) + [x]), p, WithPush(PcOf(s, p), Enqueued(g)))
  }

  lemma EnqueueDuties(s: State, p: Tid, x: OpId, g: Gid)
    requires ThreadInv(s, p) && PushOf(PcOf(s, p)) == Counted(x, g) && x < |s.ops| && OpInv(s, x)
    ensures var s' := Enqueue(s, p, x, g);
      Moved(s, s', x) && Duties(s, s', p, x) && StatesAlone(s, s', p)
  {
  }

  lemma EnqueueBags(s: State, p: Tid, x: OpId, g: Gid)
    requires PushOf(PcOf(s, p)) == Counted(x, g) && At(s.ops, x, Staged(p))
    ensures var s' := Enqueue(s, p, x, g); Moved(s, s', x) && BagsFollow(s, s', x)
  {
    AddToBag(QueueOf(s, g), x);
    hide BagMoves, BagsFollow;
    OneBagFollows(s, Enqueue(s, p, x, g), x, Queued(g));
  }

  // A call to tu_tm_push_task: into the cache, which may give up its oldest operation.

  /** A new operation goes into the cache of `p`, during an exec. */
  function CacheNew(s: State, p: Tid, g: Gid): State {
    s.(ops := s.ops + [Info(g, None, Cached(p), 0)], caches := s.caches[p := CacheOf(s, p) + [|s.ops|]])
  }

  lemma CacheNewDuties(s: State, p: Tid, g: Gid)
    requires ThreadInv(s, p) && |CacheOf(s, p)| < CACHE_SIZE && p in s.workers && s.workers[p] == g
    requires var pc := PcOf(s, p); pc.Run? || pc.StateRun? || pc.CacheRun?
    ensures var s' := CacheNew(s, p, g);
      Moved(s, s', |s.ops|) && Duties(s, s', p, |s.ops|) && StatesAlone(s, s', p)
  {
  }

  lemma CacheNewBags(s: State, p: Tid, g: Gid)
    ensures var s' := CacheNew(s, p, g); Moved(s, s', |s.ops|) && BagsFollow(s, s', |s.ops|)
  {
    var s' := CacheNew(s, p, g);
    AddToBag(CacheOf(s, p), |s.ops|);
    hide BagMoves, BagsFollow;
    assert CacheOf(s', p) == CacheOf(s, p) + [|s.ops|] && OneQueueChanges(s, s', Cached(p));
    hide OneQueueChanges, CacheNew;
    OneBagFollows(s, s', |s.ops|, Cached(p));
  }

  /** The oldest cached operation leaves the cache to be counted and pushed. */
  function Evict(s: State, p: Tid, g: Gid): State
    requires MayPush(PcOf(s, p)) && CacheOf(s, p) != []
  {
    var c := CacheOf(s, p);
    Goto(MoveTo(s, c[0], Staged(p)), p, WithPush(PcOf(s, p), Counted(c[0], g))).(
      caches := s.caches[p := c[1..]], counter := s.counter + 1)
  }

  lemma EvictDuties(s: State, p: Tid, g: Gid, x: OpId)
    requires ThreadInv(s, p) && MayPush(PcOf(s, p)) && CacheOf(s, p) != [] && p in s.workers && s.workers[p] == g
    requires x == CacheOf(s, p)[0] && At(s.ops, x, Cached(p)) && OpInv(s, x)
    ensures var s' := Evict(s, p, g); Moved(s, s', x) && Duties(s, s', p, x) && StatesAlone(s, s', p)
  {
    EvictHands(s, p, g, x);
    hide HandsInv, CacheInv;
  }

  lemma EvictHands(s: State, p: Tid, g: Gid, x: OpId)
    requires ThreadInv(s, p) && MayPush(PcOf(s, p)) && CacheOf(s, p) != [] && p in s.workers && s.workers[p] == g
    requires x == CacheOf(s, p)[0] && At(s.ops, x, Cached(p)) && OpInv(s, x)
    ensures HandsInv(Evict(s, p, g), p) && CacheInv(Evict(s, p, g), p)
  {
  }

  lemma EvictBags(s: State, p: Tid, g: Gid, x: OpId)
    requires MayPush(PcOf(s, p)) && CacheOf(s, p) != [] && x == CacheOf(s, p)[0] && At(s.ops, x, Cached(p))
    ensures var s' := Evict(s, p, g); Moved(s, s', x) && BagsFollow(s, s', x)
  {
    var c := CacheOf(s, p);
    TakeFirstFromBag(c);
    hide BagMoves, BagsFollow;
    OneBagFollows(s, Evict(s, p, g), x, Cached(p));
  }

  lemma InBagIsThere(s: State, pl: Place, q: seq<OpId>, i: nat)
    requires BagInv(s) && InBag(pl) && BagOf(s, pl) == multiset(q) && i < |q|
    ensures At(s.ops, q[i], pl)
  {
    assert q[i] in q && BagOf(s, pl)[q[i]] > 0;
  }

  // The drain loop of a worker.

  lemma TakeQueuedDuties(s: State, p: Tid, g: Gid, i: nat, outer: nat)
    requires i < |QueueOf(s, g)| && PcOf(s, p) == Pop(outer) && ThreadInv(s, p)
    requires var x := QueueOf(s, g)[i]; At(s.ops, x, Queued(g)) && OpInv(s, x)
    ensures var x, s' := QueueOf(s, g)[i], TakeQueued(s, p, g, i, outer);
      Moved(s, s', x) && Duties(s, s', p, x) && StatesAlone(s, s', p)
  {
    var x := QueueOf(s, g)[i];
    var s1 := SetQueue(s, g, RemoveAt(QueueOf(s, g), i));
    if s.ops[x].state.Some? { CarryDuties(s, s1, p, x, outer); } else { RunNowDuties(s, s1, p, x, outer); }
    hide Duties, OpInv, ThreadInv;
  }

  lemma CarryDuties(s: State, s1: State, p: Tid, x: OpId, outer: nat)
    requires s1 == s.(groups := s1.groups) && PcOf(s, p) == Pop(outer) && ThreadInv(s, p)
    requires x < |s.ops| && s.ops[x].place.Queued? && OpInv(s, x) && s.ops[x].state.Some?
    ensures var s' := Carry(s1, p, x, s.ops[x].state.value, outer);
      Moved(s, s', x) && Duties(s, s', p, x) && StatesAlone(s, s', p)
  {
  }

  lemma RunNowDuties(s: State, s1: State, p: Tid, x: OpId, outer: nat)
    requires s1 == s.(groups := s1.groups) && PcOf(s, p) == Pop(outer) && ThreadInv(s, p)
    requires x < |s.ops| && s.ops[x].place.Queued? && OpInv(s, x) && s.ops[x].state.None?
    ensures var s' := RunNow(s1, p, x, outer);
      Moved(s, s', x) && Duties(s, s', p, x) && StatesAlone(s, s', p)
  {
  }

  lemma TakeQueuedBags(s: State, p: Tid, g: Gid, i: nat, outer: nat)
    requires i < |QueueOf(s, g)| && At(s.ops, QueueOf(s, g)[i], Queued(g))
    ensures var x, s' := QueueOf(s, g)[i], TakeQueued(s, p, g, i, outer); Moved(s, s', x) && BagsFollow(s, s', x)
  {
    var x := QueueOf(s, g)[i];
    TakeFromBag(QueueOf(s, g), i);
    hide BagMoves, RemoveAt, BagsFollow;
    var s1 := SetQueue(s, g, RemoveAt(QueueOf(s, g), i));
    if s.ops[x].state.Some? { CarryBags(s, s1, p, g, x, outer); } else { RunNowBags(s, s1, p, g, x, outer); }
  }

  ghost predicate LeavesQueue(s: State, s1: State, g: Gid, x: OpId) {
    && s1 == s.(groups := s1.groups)
    && (forall h: Gid | h != g :: QueueOf(s1, h) == QueueOf(s, h))
    && BagMoves(multiset(QueueOf(s, g)), multiset(QueueOf(s1, g)), x, true, false)
  }

  lemma CarryBags(s: State, s1: State, p: Tid, g: Gid, x: OpId, outer: nat)
    requires LeavesQueue(s, s1, g, x) && At(s.ops, x, Queued(g)) && s.ops[x].state.Some?
    ensures var s' := Carry(s1, p, x, s.ops[x].state.value, outer); Moved(s, s', x) && BagsFollow(s, s', x)
  {
    hide BagMoves, BagsFollow;
    OneBagFollows(s, Carry(s1, p, x, s.ops[x].state.value, outer), x, Queued(g));
  }

  lemma RunNowBags(s: State, s1: State, p: Tid, g: Gid, x: OpId, outer: nat)
    requires LeavesQueue(s, s1, g, x) && At(s.ops, x, Queued(g))
    ensures var s' := RunNow(s1, p, x, outer); Moved(s, s', x) && BagsFollow(s, s', x)
  {
    hide BagMoves, BagsFollow;
    OneBagFollows(s, RunNow(s1, p, x, outer), x, Queued(g));
  }

  /** The end of an exec. */
  function EndExec(s: State, p: Tid, x: OpId, to: Place, pc: Pc): State {
    Goto(MoveTo(s, x, to), p, pc)
  }

  lemma EndRunDuties(s: State, p: Tid, x: OpId)
    requires ThreadInv(s, p) && x < |s.ops| && OpInv(s, x)
    requires var pc := PcOf(s, p); pc.Run? && pc.push.NotPushing? && pc.x == x
    ensures var s' := EndExec(s, p, x, Unretired(p), CachePop(PcOf(s, p).outer + 1));
      Moved(s, s', x) && Duties(s, s', p, x) && StatesAlone(s, s', p)
  {
  }

  lemma EndCacheRunDuties(s: State, p: Tid, x: OpId)
    requires ThreadInv(s, p) && x < |s.ops| && OpInv(s, x)
    requires var pc := PcOf(s, p); pc.CacheRun? && pc.push.NotPushing? && pc.x == x
    ensures var s' := EndExec(s, p, x, Absorbed, CachePop(PcOf(s, p).outer));
      Moved(s, s', x) && Duties(s, s', p, x) && StatesAlone(s, s', p)
  {
  }

  lemma EndStateRunDuties(s: State, p: Tid, x: OpId)
    requires ThreadInv(s, p) && x < |s.ops| && OpInv(s, x)
    requires var pc := PcOf(s, p); pc.StateRun? && pc.push.NotPushing? && pc.x == x
    ensures var pc := PcOf(s, p);
      var s' := EndExec(s, p, x, Unretired(p), StateSub(pc.st, pc.outer, pc.inner + 1));
      Moved(s, s', x) && Duties(s, s', p, x) && StatesAlone(s, s', p)
  {
  }

  lemma EndExecBags(s: State, p: Tid, x: OpId, to: Place, pc: Pc)
    requires x < |s.ops| && !InBag(s.ops[x].place) && !InBag(to)
    ensures var s' := EndExec(s, p, x, to, pc); Moved(s, s', x) && BagsFollow(s, s', x)
  {
    hide BagMoves, BagsFollow;
    OneBagFollows(s, EndExec(s, p, x, to, pc), x, to);
  }

  lemma TakeCachedDuties(s: State, p: Tid, outer: nat, x: OpId)
    requires ThreadInv(s, p) && PcOf(s, p) == CachePop(outer) && CacheOf(s, p) != []
    requires x == CacheOf(s, p)[|CacheOf(s, p)| - 1] && At(s.ops, x, Cached(p)) && OpInv(s, x)
    ensures var s' := TakeCached(s, p, outer); Moved(s, s', x) && Duties(s, s', p, x) && StatesAlone(s, s', p)
  {
  }

  lemma TakeCachedBags(s: State, p: Tid, outer: nat, x: OpId)
    requires CacheOf(s, p) != [] && x == CacheOf(s, p)[|CacheOf(s, p)| - 1] && At(s.ops, x, Cached(p))
    ensures var s' := TakeCached(s, p, outer); Moved(s, s', x) && BagsFollow(s, s', x)
  {
    var c := CacheOf(s, p);
    TakeLastFromBag(c);
    hide BagMoves, BagsFollow;
    OneBagFollows(s, TakeCached(s, p, outer), x, Cached(p));
  }

  // The state protocol.

  /** The thread that pushed on the state queue now owes an increment. */
  function PushState(s: State, p: Tid, x: OpId, st: Sid, outer: nat): State {
    var c := ContextOf(s, st);
    Goto(SetContext(MoveTo(s, x, InState(st)), st, c.(queue := c.queue + [x])), p, StateAdd(st, outer))
  }

  lemma PushStateDuties(s: State, p: Tid, x: OpId, st: Sid, outer: nat)
    requires ThreadInv(s, p) && PcOf(s, p) == StatePush(x, st, outer) && x < |s.ops| && OpInv(s, x)
    ensures var s' := PushState(s, p, x, st, outer); Moved(s, s', x) && Duties(s, s', p, x)
  {
  }

  lemma PushStateBags(s: State, p: Tid, x: OpId, st: Sid, outer: nat)
    requires x < |s.ops| && !InBag(s.ops[x].place)
    ensures var s' := PushState(s, p, x, st, outer); Moved(s, s', x) && BagsFollow(s, s', x)
  {
    AddToBag(StateQueueOf(s, st), x);
    hide BagMoves, BagsFollow;
    OneBagFollows(s, PushState(s, p, x, st, outer), x, InState(st));
  }

  lemma PushStateStates(s: State, p: Tid, x: OpId, st: Sid, outer: nat, t: Sid)
    requires PcOf(s, p) == StatePush(x, st, outer) && StateInv(s, t)
    ensures StateInv(PushState(s, p, x, st, outer), t)
  {
    var s' := PushState(s, p, x, st, outer);
    AddersChange(s, s', p, t);
    hide Adders;
  }

  /** `fetch_add` on the state counter: zero means the thread becomes the owner. */
  function AddState(s: State, p: Tid, st: Sid, outer: nat): State {
    var c := ContextOf(s, st);
    var c' := c.(counter := c.counter + 1, owner := if c.counter == 0 then Some(p) else c.owner);
    Goto(SetContext(s, st, c'), p, if c.counter == 0 then StatePop(st, outer, 0) else CachePop(outer))
  }

  lemma AddStateUnmoved(s: State, p: Tid, st: Sid, outer: nat)
    requires ThreadInv(s, p) && PcOf(s, p) == StateAdd(st, outer) && StateInv(s, st)
    ensures Unmoved(s, AddState(s, p, st, outer), p)
  {
  }

  lemma AddStateStates(s: State, p: Tid, st: Sid, outer: nat, t: Sid)
    requires PcOf(s, p) == StateAdd(st, outer) && StateInv(s, t)
    ensures StateInv(AddState(s, p, st, outer), t)
  {
    var s' := AddState(s, p, st, outer);
    AddersChange(s, s', p, t);
    hide Adders;
  }

  /** The owner pops one operation of its state. */
  function TakeState(s: State, p: Tid, st: Sid, outer: nat, inner: nat, i: nat): State
    requires i < |StateQueueOf(s, st)|
  {
    var c := ContextOf(s, st);
    var x := c.queue[i];
    Goto(SetContext(Start(s, x, Running(p)), st, c.(queue := RemoveAt(c.queue, i))), p,
         StateRun(x, st, outer, inner, NotPushing))
  }

  lemma TakeStateDuties(s: State, p: Tid, st: Sid, outer: nat, inner: nat, i: nat)
    requires i < |StateQueueOf(s, st)| && ThreadInv(s, p) && PcOf(s, p) == StatePop(st, outer, inner)
    requires var x := StateQueueOf(s, st)[i]; At(s.ops, x, InState(st)) && OpInv(s, x)
    ensures var x, s' := StateQueueOf(s, st)[i], TakeState(s, p, st, outer, inner, i);
      Moved(s, s', x) && Duties(s, s', p, x)
  {
    hide RemoveAt;
  }

  lemma TakeStateBags(s: State, p: Tid, st: Sid, outer: nat, inner: nat, i: nat)
    requires i < |StateQueueOf(s, st)| && At(s.ops, StateQueueOf(s, st)[i], InState(st))
    ensures var x, s' := StateQueueOf(s, st)[i], TakeState(s, p, st, outer, inner, i);
      Moved(s, s', x) && BagsFollow(s, s', x)
  {
    TakeFromBag(StateQueueOf(s, st), i);
    hide BagMoves, BagsFollow, RemoveAt;
    OneBagFollows(s, TakeState(s, p, st, outer, inner, i), StateQueueOf(s, st)[i], InState(st));
  }

  lemma TakeStateStates(s: State, p: Tid, st: Sid, outer: nat, inner: nat, i: nat, t: Sid)
    requires i < |StateQueueOf(s, st)| && HandsInv(s, p) && PcOf(s, p) == StatePop(st, outer, inner) && StateInv(s, t)
    ensures StateInv(TakeState(s, p, st, outer, inner, i), t)
  {
    var s' := TakeState(s, p, st, outer, inner, i);
    AddersChange(s, s', p, t);
    hide Adders;
  }

  /** `fetch_sub` on the state counter: one means the owner leaves. */
  function SubState(s: State, p: Tid, st: Sid, outer: nat, inner: nat): State {
    var c := ContextOf(s, st);
    var c' := c.(counter := if c.counter == 0 then 0 else c.counter - 1,
                 owner := if c.counter == 1 then None else c.owner);
    Goto(SetContext(s, st, c'), p, if c.counter == 1 then CachePop(outer + inner) else StatePop(st, outer, inner))
  }

  lemma SubStateUnmoved(s: State, p: Tid, st: Sid, outer: nat, inner: nat)
    requires ThreadInv(s, p) && PcOf(s, p) == StateSub(st, outer, inner) && StateInv(s, st)
    ensures Unmoved(s, SubState(s, p, st, outer, inner), p)
  {
  }

  lemma SubStateStates(s: State, p: Tid, st: Sid, outer: nat, inner: nat, t: Sid)
    requires HandsInv(s, p) && PcOf(s, p) == StateSub(st, outer, inner) && StateInv(s, t)
    ensures StateInv(SubState(s, p, st, outer, inner), t)
  {
    var s' := SubState(s, p, st, outer, inner);
    AddersChange(s, s', p, t);
    hide Adders;
  }

  // Retiring, sleeping, and the whole step.

  lemma RetireCounts(ops: seq<Info>, p: Tid)
    ensures |Pending(RetireAll(ops, p))| == |Pending(ops)| - |UnretiredBy(ops, p)|
    ensures UnretiredBy(RetireAll(ops, p), p) == {}
    ensures forall q: Tid | q != p :: UnretiredBy(RetireAll(ops, p), q) == UnretiredBy(ops, q)
  {
    var r := RetireAll(ops, p);
    assert Pending(r) == Pending(ops) - UnretiredBy(ops, p);
    assert UnretiredBy(ops, p) <= Pending(ops);
  }

  lemma RetireThreads(s: State, p: Tid, outer: nat)
    requires PcOf(s, p) == Retire(outer) && forall q: Tid :: ThreadInv(s, q)
    ensures var s' := RetireCount(s, p, outer); forall q: Tid :: ThreadInv(s', q)
  {
    var s' := RetireCount(s, p, outer);
    RetireCounts(s.ops, p);
    hide RetireAll, UnretiredBy;
    forall q: Tid ensures ThreadInv(s', q) { assert ThreadInv(s, q); }
  }

  lemma RetireKeepsInv(s: State, p: Tid, outer: nat)
    requires Inv(s) && PcOf(s, p) == Retire(outer)
    ensures Inv(RetireCount(s, p, outer))
  {
    var s' := RetireCount(s, p, outer);
    assert forall st: Sid :: StateInv(s', st) by { StatesKeep(s, s', p); }
    RetireThreads(s, p, outer);
    assert CountInv(s') by { RetireCounts(s.ops, p); assert ThreadInv(s, p); }
    hide ThreadInv, StateInv, CountInv, RetireAll;
    forall x: OpId | x < |s'.ops| ensures OpInv(s', x) { assert OpInv(s, x); }
    RetireBags(s, p, outer);
  }

  lemma RetireBags(s: State, p: Tid, outer: nat)
    requires BagInv(s)
    ensures BagInv(RetireCount(s, p, outer))
  {
    var s' := RetireCount(s, p, outer);
    assert OneQueueChanges(s, s', Absorbed);
    assert forall x: OpId, pl: Place | InBag(pl) :: At(s'.ops, x, pl) <==> At(s.ops, x, pl);
    hide BagOf, OneQueueChanges, RetireCount;
    forall pl: Place, x: OpId | InBag(pl) ensures BagOf(s', pl)[x] == if At(s'.ops, x, pl) then 1 else 0 {
      OtherBag(s, s', Absorbed, pl);
      assert BagOf(s, pl)[x] == if At(s.ops, x, pl) then 1 else 0;
    }
  }

  lemma ParkIsUnmoved(s: State, p: Tid)
    requires ThreadInv(s, p) && (PcOf(s, p).Park? || PcOf(s, p).Unpark?)
    ensures Unmoved(s, SleepMove(s, p), p) && StatesAlone(s, SleepMove(s, p), p)
  {
  }

  lemma AcquireIsUnmoved(s: State, p: Tid)
    requires ThreadInv(s, p) && PcOf(s, p).Acquire? && SleepMove(s, p) != s
    ensures Unmoved(s, SleepMove(s, p), p) && StatesAlone(s, SleepMove(s, p), p)
  {
  }

  lemma CheckTermIsUnmoved(s: State, p: Tid)
    requires ThreadInv(s, p) && PcOf(s, p).CheckTerm?
    ensures Unmoved(s, SleepMove(s, p), p) && StatesAlone(s, SleepMove(s, p), p)
  {
  }

  lemma SleepKeepsInv(s: State, p: Tid)
    requires Inv(s) && var pc := PcOf(s, p); pc.Park? || pc.Acquire? || pc.CheckTerm? || pc.Unpark?
    ensures Inv(SleepMove(s, p))
  {
    if SleepMove(s, p) != s {
      InvOfThread(s, p);
      hide *;
      match PcOf(s, p) {
        case Acquire => AcquireIsUnmoved(s, p);
        case CheckTerm => CheckTermIsUnmoved(s, p);
        case _ => ParkIsUnmoved(s, p);
      }
      QuietKeepsInv(s, SleepMove(s, p), p);
    }
  }

  lemma InvOfThread(s: State, p: Tid)
    requires Inv(s)
    ensures ThreadInv(s, p)
  {
    hide ThreadInv;
  }

  lemma PushStepKeepsInv(s: State, p: Tid)
    requires Inv(s) && !PushOf(PcOf(s, p)).NotPushing?
    ensures Inv(Next(s, p, Step(0, None)))
  {
    var s' := Next(s, p, Step(0, None));
    assert ThreadInv(s, p);
    hide StateInv, BagInv;
    match PushOf(PcOf(s, p))
    case Counted(x, g) =>
      EnqueueDuties(s, p, x, g);
      EnqueueBags(s, p, x, g);
      hide *;
      PlainMoveKeepsInv(s, s', p, x);
    case Enqueued(g) =>
      hide *;
      PermitIsUnmoved(s, p, g);
      QuietKeepsInv(s, s', p);
  }

  lemma PermitIsUnmoved(s: State, p: Tid, g: Gid)
    requires ThreadInv(s, p) && PushOf(PcOf(s, p)) == Enqueued(g)
    ensures var s' := Next(s, p, Step(0, None)); Unmoved(s, s', p) && StatesAlone(s, s', p)
  {
  }

  lemma CallKeepsInv(s: State, p: Tid, a: Action)
    requires Inv(s) && (a.CallPush? || a.CallPushTask?)
    ensures Inv(Next(s, p, a))
  {
    if MayPush(PcOf(s, p)) {
      if a.CallPush? { CountNewKeepsInv(s, p, a.g, a.st); }
      else if p in s.workers { PushTaskKeepsInv(s, p, a.g); }
    }
    hide Inv, CountNew, PushTask;
  }

  lemma CountNewKeepsInv(s: State, p: Tid, g: Gid, st: Option<Sid>)
    requires Inv(s) && MayPush(PcOf(s, p))
    ensures Inv(CountNew(s, p, g, st))
  {
    assert ThreadInv(s, p);
    CountNewDuties(s, p, g, st);
    CountNewBags(s, p, g, st);
    hide *;
    PlainMoveKeepsInv(s, CountNew(s, p, g, st), p, |s.ops|);
  }

  lemma CacheNewKeepsInv(s: State, p: Tid, g: Gid)
    requires Inv(s) && |CacheOf(s, p)| < CACHE_SIZE && p in s.workers && s.workers[p] == g
    requires var pc := PcOf(s, p); pc.Run? || pc.StateRun? || pc.CacheRun?
    ensures Inv(CacheNew(s, p, g))
  {
    assert ThreadInv(s, p);
    CacheNewDuties(s, p, g);
    CacheNewBags(s, p, g);
    hide *;
    PlainMoveKeepsInv(s, CacheNew(s, p, g), p, |s.ops|);
  }

  lemma EvictKeepsInv(s: State, p: Tid, g: Gid)
    requires Inv(s) && MayPush(PcOf(s, p)) && CacheOf(s, p) != [] && p in s.workers && s.workers[p] == g
    ensures Inv(Evict(s, p, g))
  {
    var x := CacheOf(s, p)[0];
    InBagIsThere(s, Cached(p), CacheOf(s, p), 0);
    assert ThreadInv(s, p) && OpInv(s, x);
    EvictDuties(s, p, g, x);
    EvictBags(s, p, g, x);
    hide *;
    PlainMoveKeepsInv(s, Evict(s, p, g), p, x);
  }

  lemma PushTaskKeepsInv(s: State, p: Tid, g: Gid)
    requires Inv(s) && MayPush(PcOf(s, p)) && p in s.workers
    ensures Inv(PushTask(s, p, g))
  {
    assert ThreadInv(s, p);
    if s.workers[p] != g { CountNewKeepsInv(s, p, g, None); }
    else if |CacheOf(s, p)| < CACHE_SIZE { CacheNewKeepsInv(s, p, g); }
    else {
      EvictKeepsInv(s, p, g);
      CacheNewKeepsInv(Evict(s, p, g), p, g);
    }
  }

  lemma DrainKeepsInv(s: State, p: Tid, pick: nat, miss: Option<Tid>)
    requires Inv(s) && PushOf(PcOf(s, p)).NotPushing?
    requires var pc := PcOf(s, p); pc.CachePop? || pc.CacheRun? || pc.Run? || pc.Pop? || pc.Retire?
    ensures Inv(DrainMove(s, p, pick, miss))
  {
    assert ThreadInv(s, p);
    match PcOf(s, p)
    case Pop(outer) =>
      if MayMiss(s, s.workers[p], miss) { StepQuietly(s, p, Retire(outer)); }
      else { TakeQueuedKeepsInv(s, p, s.workers[p], pick % |QueueOf(s, s.workers[p])|, outer); }
    case Run(x, outer, _) => EndExecKeepsInv(s, p, x);
    case CachePop(outer) =>
      if CacheOf(s, p) == [] { StepQuietly(s, p, Pop(outer)); } else { TakeCachedKeepsInv(s, p, outer); }
    case CacheRun(x, outer, _) => EndExecKeepsInv(s, p, x);
    case Retire(outer) => RetireKeepsInv(s, p, outer);
  }

  lemma StepQuietly(s: State, p: Tid, pc: Pc)
    requires Inv(s)
    requires (PcOf(s, p).Pop? && pc == Retire(PcOf(s, p).outer))
          || (PcOf(s, p).CachePop? && CacheOf(s, p) == [] && pc == Pop(PcOf(s, p).outer))
    ensures Inv(Goto(s, p, pc))
  {
    var s' := Goto(s, p, pc);
    assert ThreadInv(s, p);
    assert Unmoved(s, s', p) && StatesAlone(s, s', p) by { hide Inv, StateInv, OpInv, BagInv; }
    hide *;
    QuietKeepsInv(s, s', p);
  }

  lemma TakeQueuedKeepsInv(s: State, p: Tid, g: Gid, i: nat, outer: nat)
    requires Inv(s) && i < |QueueOf(s, g)| && PcOf(s, p) == Pop(outer)
    ensures Inv(TakeQueued(s, p, g, i, outer))
  {
    var x := QueueOf(s, g)[i];
    InBagIsThere(s, Queued(g), QueueOf(s, g), i);
    assert ThreadInv(s, p) && OpInv(s, x);
    TakeQueuedDuties(s, p, g, i, outer);
    TakeQueuedBags(s, p, g, i, outer);
    hide *;
    PlainMoveKeepsInv(s, TakeQueued(s, p, g, i, outer), p, x);
  }

  lemma TakeCachedKeepsInv(s: State, p: Tid, outer: nat)
    requires Inv(s) && PcOf(s, p) == CachePop(outer) && CacheOf(s, p) != []
    ensures Inv(TakeCached(s, p, outer))
  {
    var x := CacheOf(s, p)[|CacheOf(s, p)| - 1];
    InBagIsThere(s, Cached(p), CacheOf(s, p), |CacheOf(s, p)| - 1);
    assert ThreadInv(s, p) && OpInv(s, x);
    TakeCachedDuties(s, p, outer, x);
    TakeCachedBags(s, p, outer, x);
    hide *;
    PlainMoveKeepsInv(s, TakeCached(s, p, outer), p, x);
  }

  lemma EndExecKeepsInv(s: State, p: Tid, x: OpId)
    requires Inv(s)
    requires var pc := PcOf(s, p); (pc.Run? || pc.CacheRun? || pc.StateRun?) && pc.push.NotPushing? && pc.x == x
    ensures var pc := PcOf(s, p);
      Inv(EndExec(s, p, x, if pc.CacheRun? then Absorbed else Unretired(p),
                  if pc.Run? then CachePop(pc.outer + 1) else if pc.CacheRun? then CachePop(pc.outer)
                  else StateSub(pc.st, pc.outer, pc.inner + 1)))
  {
    var pc := PcOf(s, p);
    var to := if pc.CacheRun? then Absorbed else Unretired(p);
    var pc' := if pc.Run? then CachePop(pc.outer + 1) else if pc.CacheRun? then CachePop(pc.outer)
               else StateSub(pc.st, pc.outer, pc.inner + 1);
    assert ThreadInv(s, p) && OpInv(s, x);
    hide ThreadInv, OpInv, Duties, BagsFollow, StatesAlone, EndExec, BagInv, CountInv, StateInv;
    if pc.Run? {
      EndRunDuties(s, p, x);
    } else if pc.CacheRun? {
      EndCacheRunDuties(s, p, x);
    } else {
      EndStateRunDuties(s, p, x);
    }
    EndExecBags(s, p, x, to, pc');
    PlainMoveKeepsInv(s, EndExec(s, p, x, to, pc'), p, x);
  }

  lemma StateStepKeepsInv(s: State, p: Tid, pick: nat, miss: Option<Tid>)
    requires Inv(s) && PushOf(PcOf(s, p)).NotPushing?
    requires var pc := PcOf(s, p); pc.StatePush? || pc.StateAdd? || pc.StatePop? || pc.StateRun? || pc.StateSub?
    ensures Inv(StateMove(s, p, pick, miss))
  {
    hide Inv, PushState, AddState, TakeState, SubState, EndExec;
    match PcOf(s, p)
    case StatePush(x, st, outer) => PushStateKeepsInv(s, p, x, st, outer);
    case StateAdd(st, outer) => AddStateKeepsInv(s, p, st, outer);
    case StatePop(st, outer, inner) =>
      if StateQueueOf(s, st) != [] && miss.None? {
        TakeStateKeepsInv(s, p, st, outer, inner, pick % |StateQueueOf(s, st)|);
      }
    case StateRun(x, st, outer, inner, _) => EndExecKeepsInv(s, p, x);
    case StateSub(st, outer, inner) => SubStateKeepsInv(s, p, st, outer, inner);
  }

  lemma PushStateKeepsInv(s: State, p: Tid, x: OpId, st: Sid, outer: nat)
    requires Inv(s) && PcOf(s, p) == StatePush(x, st, outer)
    ensures Inv(PushState(s, p, x, st, outer))
  {
    assert ThreadInv(s, p) && OpInv(s, x);
    PushStateDuties(s, p, x, st, outer);
    PushStateBags(s, p, x, st, outer);
    forall t: Sid ensures StateInv(PushState(s, p, x, st, outer), t) { PushStateStates(s, p, x, st, outer, t); }
    hide *;
    StateMoveKeepsInv(s, PushState(s, p, x, st, outer), p, x);
  }

  lemma AddStateKeepsInv(s: State, p: Tid, st: Sid, outer: nat)
    requires Inv(s) && PcOf(s, p) == StateAdd(st, outer)
    ensures Inv(AddState(s, p, st, outer))
  {
    assert ThreadInv(s, p);
    AddStateUnmoved(s, p, st, outer);
    forall t: Sid ensures StateInv(AddState(s, p, st, outer), t) { AddStateStates(s, p, st, outer, t); }
    hide *;
    UnmovedKeepsInv(s, AddState(s, p, st, outer), p);
  }

  lemma TakeStateKeepsInv(s: State, p: Tid, st: Sid, outer: nat, inner: nat, i: nat)
    requires Inv(s) && i < |StateQueueOf(s, st)| && PcOf(s, p) == StatePop(st, outer, inner)
    ensures Inv(TakeState(s, p, st, outer, inner, i))
  {
    var x := StateQueueOf(s, st)[i];
    InBagIsThere(s, InState(st), StateQueueOf(s, st), i);
    assert ThreadInv(s, p) && OpInv(s, x);
    TakeStateDuties(s, p, st, outer, inner, i);
    TakeStateBags(s, p, st, outer, inner, i);
    forall t: Sid ensures StateInv(TakeState(s, p, st, outer, inner, i), t) {
      TakeStateStates(s, p, st, outer, inner, i, t);
    }
    hide *;
    StateMoveKeepsInv(s, TakeState(s, p, st, outer, inner, i), p, x);
  }

  lemma SubStateKeepsInv(s: State, p: Tid, st: Sid, outer: nat, inner: nat)
    requires Inv(s) && PcOf(s, p) == StateSub(st, outer, inner)
    ensures Inv(SubState(s, p, st, outer, inner))
  {
    assert ThreadInv(s, p);
    SubStateUnmoved(s, p, st, outer, inner);
    forall t: Sid ensures StateInv(SubState(s, p, st, outer, inner), t) { SubStateStates(s, p, st, outer, inner, t); }
    hide *;
    UnmovedKeepsInv(s, SubState(s, p, st, outer, inner), p);
  }

  lemma ShutdownKeepsInv(s: State, p: Tid, a: Action)
    requires Inv(s) && (a.Close? || a.ReleaseAll?)
    ensures Inv(Next(s, p, a))
  {
    assert ThreadInv(s, p);
    hide *;
    ShutdownIsShutdown(s, p, a);
    ShutdownIsUnmoved(s, Next(s, p, a), p);
    QuietKeepsInv(s, Next(s, p, a), p);
  }

  ghost predicate IsShutdown(s: State, s': State) {
    && s'.ops == s.ops && s'.counter == s.counter && s'.caches == s.caches && s'.states == s.states
    && s'.workers == s.workers && s'.pcs == s.pcs && forall g: Gid :: QueueOf(s', g) == QueueOf(s, g)
  }

  lemma ShutdownIsShutdown(s: State, p: Tid, a: Action)
    requires a.Close? || a.ReleaseAll?
    ensures IsShutdown(s, Next(s, p, a))
  {
  }

  lemma ShutdownIsUnmoved(s: State, s': State, p: Tid)
    requires ThreadInv(s, p) && IsShutdown(s, s')
    ensures Unmoved(s, s', p) && StatesAlone(s, s', p)
  {
  }

  lemma NextKeepsInv(s: State, p: Tid, a: Action)
    requires Inv(s)
    ensures Inv(Next(s, p, a))
  {
    hide Inv, PushTask, CountNew, StateMove, DrainMove, SleepMove, Enqueue;
    var pc := PcOf(s, p);
    match a
    case CallPush(g, st) => CallKeepsInv(s, p, a);
    case CallPushTask(g) => CallKeepsInv(s, p, a);
    case Close(w) => ShutdownKeepsInv(s, p, a);
    case ReleaseAll(g) => ShutdownKeepsInv(s, p, a);
    case Step(pick, miss) =>
      if !PushOf(pc).NotPushing? { PushStepKeepsInv(s, p); }
      else if pc.StatePush? || pc.StateAdd? || pc.StatePop? || pc.StateRun? || pc.StateSub? {
        StateStepKeepsInv(s, p, pick, miss);
      }
      else if pc.CachePop? || pc.CacheRun? || pc.Run? || pc.Pop? || pc.Retire? { DrainKeepsInv(s, p, pick, miss); }
      else if pc.Park? || pc.Acquire? || pc.CheckTerm? || pc.Unpark? { SleepKeepsInv(s, p); }
      else { assert SleepMove(s, p) == s by { IdleSleep(s, p); } }
  }

  lemma IdleSleep(s: State, p: Tid)
    requires var pc := PcOf(s, p); !pc.Park? && !pc.Acquire? && !pc.CheckTerm? && !pc.Unpark?
    ensures SleepMove(s, p) == s
  {
  }

  lemma {:induction false} RunKeepsInv(s: State, schedule: seq<(Tid, Action)>)
    requires Inv(s)
    ensures Inv(RunAll(s, schedule))
    decreases |schedule|
  {
    if schedule == [] {
    } else {
      NextKeepsInv(s, schedule[0].0, schedule[0].1);
      RunKeepsInv(Next(s, schedule[0].0, schedule[0].1), schedule[1..]);
    }
  }
}
