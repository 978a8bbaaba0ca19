/**
  The task manager over queues that are called and answer: between a call to a group's queue and its
  answer other threads go on, and the call takes effect once on the way, as `AtomicBag` says.  Every
  run of it is a run of `TaskManager`, where such a call is one step.
 */
module ManagerQueues {
  import opened Common
  import opened TaskManager
  import TaskManagerRuns
  import Queue = OverflowRuns
  import Bags = AtomicBag

  type Bag = Bags.Bag<OpId>

  /** `m` is the task manager but for the contents of the group queues, which are in `bags`. */
  datatype System = System(m: State, bags: map<Gid, Bag>)

  /** A step of the task manager's own, or one at the queue of a group. */
  datatype Move = Own(a: Action) | At(g: Gid, b: Bags.Action<OpId>)

  function BagAt(s: System, g: Gid): Bag { if g in s.bags then s.bags[g] else Bags.Bag(multiset{}, map[]) }

  function StageAt(s: System, g: Gid, p: Tid): Queue.Stage<OpId> { Bags.StageOf(BagAt(s, g), p) }

  ghost predicate InCall(s: System, p: Tid) { exists g: Gid :: !StageAt(s, g, p).Outside? }

  /** The next access of the thread is a push to the queue of a group, or a pop from it. */
  predicate Accesses(m: State, p: Tid, a: Action) {
    a.Step? && (PushOf(PcOf(m, p)).Counted? || PcOf(m, p).Pop?)
  }

  /** The call that thread `p` makes at the queue of group `g`. */
  predicate MayCall(m: State, p: Tid, g: Gid, b: Bags.Action<OpId>) {
    match b
    case CallPush(x) => g in m.groups && PushOf(PcOf(m, p)) == Counted(x, g)
    case CallPop => g in m.groups && PcOf(m, p).Pop? && p in m.workers && m.workers[p] == g
    case _ => true
  }

  /** What the call means to its thread, once it has taken effect. */
  function Effect(m: State, p: Tid, g: Gid, b: Bags.Action<OpId>): State {
    var pc := PcOf(m, p);
    match b
    case Put =>
      if PushOf(pc).Counted? then Goto(MoveTo(m, PushOf(pc).x, Queued(g)), p, WithPush(pc, Enqueued(g))) else m
    case Take(r) =>
      if !pc.Pop? then m
      else if r < |m.ops| && m.ops[r].state.Some? then Carry(m, p, r, m.ops[r].state.value, pc.outer)
      else RunNow(m, p, r, pc.outer)
    case Miss => if pc.Pop? then Goto(m, p, Retire(pc.outer)) else m
    case _ => m
  }

  /** A thread that is in a call does nothing else. */
  ghost function Moved(s: System, p: Tid, a: Move): System {
    match a
    case Own(act) => if InCall(s, p) || Accesses(s.m, p, act) then s else s.(m := Next(s.m, p, act))
    case At(g, b) =>
      var bag := Bags.Next(BagAt(s, g), p, b);
      if bag == BagAt(s, g) || (StageAt(s, g, p).Outside? && (InCall(s, p) || !MayCall(s.m, p, g, b))) then s
      else System(Effect(s.m, p, g, b), s.bags[g := bag])
  }

  // ----- the two machines side by side --------------------------------------------------------------

  predicate SameGroup(m: State, m': State, g: Gid) {
    && (g in m.groups <==> g in m'.groups)
    && GroupOf(m, g).permits == GroupOf(m', g).permits && GroupOf(m, g).released == GroupOf(m', g).released
  }

  /** Equal but for the contents of the group queues. */
  ghost predicate Alike(m: State, m': State) {
    && m.workers == m'.workers && m.counter == m'.counter && m.states == m'.states && m.caches == m'.caches
    && m.parked == m'.parked && m.closing == m'.closing && m.pcs == m'.pcs && m.ops == m'.ops
    && forall g: Gid :: SameGroup(m, m', g)
  }

  /** Where a thread is whose call at the queue of `g` is at stage `st`. */
  predicate Fits(m: State, p: Tid, g: Gid, st: Queue.Stage<OpId>) {
    match st
    case Pushing(x) => g in m.groups && PushOf(PcOf(m, p)) == Counted(x, g)
    case Pushed => PushOf(PcOf(m, p)) == Enqueued(g)
    case Popping => g in m.groups && PcOf(m, p).Pop? && p in m.workers && m.workers[p] == g
    case _ => true
  }

  ghost predicate OneCall(s: System, p: Tid) {
    forall g, h: Gid :: !StageAt(s, g, p).Outside? && !StageAt(s, h, p).Outside? ==> g == h
  }

  ghost predicate SameQueues(s: System, m: State) { forall g: Gid :: multiset(QueueOf(m, g)) == BagAt(s, g).items }

  ghost predicate Refines(s: System, m: State) {
    && Alike(s.m, m) && SameQueues(s, m)
    && (forall p: Tid :: OneCall(s, p))
    && (forall p: Tid, g: Gid :: Fits(s.m, p, g, StageAt(s, g, p)))
  }

  /** A step of `p` on its own, the same on both sides. */
  ghost predicate InStep(m: State, n: State, m': State, n': State, p: Tid) {
    && Alike(n, n') && n.workers == m.workers && m.groups.Keys <= n.groups.Keys
    && (forall g: Gid :: QueueOf(n', g) == QueueOf(m', g))
    && forall q: Tid :: q != p ==> PcOf(n, q) == PcOf(m, q)
  }

  /** A step that leaves the groups alone does the same whatever they are. */
  ghost predicate Local(m: State, n: State, groups: map<Gid, Group>, n': State, p: Tid) {
    && n.groups == m.groups && n' == n.(groups := groups) && n.workers == m.workers
    && (n.pcs == m.pcs || n.pcs == m.pcs[p := PcOf(n, p)])
  }

  lemma LocalInStep(m: State, n: State, m': State, n': State, p: Tid)
    requires Alike(m, m') && Local(m, n, m'.groups, n', p)
    ensures InStep(m, n, m', n', p)
  {
    forall g: Gid ensures SameGroup(n, n', g) {
      assert SameGroup(m, m', g);
    }
  }

  lemma AlikeIsUpdate(m: State, m': State)
    requires Alike(m, m')
    ensures m' == m.(groups := m'.groups)
  {
    hide SameGroup;
  }

  lemma PushOpIsLocal(m: State, groups: map<Gid, Group>, p: Tid, g: Gid, st: Option<Sid>)
    requires MayPush(PcOf(m, p))
    ensures Local(m, CountNew(m, p, g, st), groups, CountNew(m.(groups := groups), p, g, st), p)
  {
  }

  lemma CacheNewIsLocal(m: State, groups: map<Gid, Group>, n: State, p: Tid, g: Gid)
    requires Local(m, n, groups, n.(groups := groups), p)
    ensures Local(m, CacheNew(n, p, g), groups, CacheNew(n.(groups := groups), p, g), p)
  {
  }

  lemma EvictIsLocal(m: State, groups: map<Gid, Group>, p: Tid, g: Gid)
    requires MayPush(PcOf(m, p)) && CacheOf(m, p) != []
    ensures Local(m, Evict(m, p, g), groups, Evict(m.(groups := groups), p, g), p)
    ensures Evict(m.(groups := groups), p, g) == Evict(m, p, g).(groups := groups)
  {
  }

  lemma PushTaskIsLocal(m: State, groups: map<Gid, Group>, p: Tid, g: Gid)
    requires MayPush(PcOf(m, p)) && p in m.workers
    ensures Local(m, PushTask(m, p, g), groups, PushTask(m.(groups := groups), p, g), p)
  {
    hide Local, CountNew, CacheNew, Evict, Goto;
    PushOpIsLocal(m, groups, p, g, None);
    GotoIsLocal(m, groups, p, PcOf(m, p));
    if |CacheOf(m, p)| < CACHE_SIZE {
      CacheNewIsLocal(m, groups, m, p, g);
    } else {
      EvictIsLocal(m, groups, p, g);
      CacheNewIsLocal(m, groups, Evict(m, p, g), p, g);
    }
  }

  lemma EndIsLocal(m: State, groups: map<Gid, Group>, p: Tid, x: OpId, place: Place, pc: Pc)
    ensures Local(m, EndExec(m, p, x, place, pc), groups, EndExec(m.(groups := groups), p, x, place, pc), p)
  {
  }

  lemma CacheIsLocal(m: State, groups: map<Gid, Group>, p: Tid, outer: nat)
    requires CacheOf(m, p) != []
    ensures Local(m, TakeCached(m, p, outer), groups, TakeCached(m.(groups := groups), p, outer), p)
  {
  }

  lemma GotoIsLocal(m: State, groups: map<Gid, Group>, p: Tid, pc: Pc)
    ensures Local(m, Goto(m, p, pc), groups, Goto(m.(groups := groups), p, pc), p)
    ensures Local(m, m, groups, m.(groups := groups), p)
  {
  }

  lemma RetireIsLocal(m: State, groups: map<Gid, Group>, p: Tid, outer: nat)
    ensures Local(m, RetireCount(m, p, outer), groups, RetireCount(m.(groups := groups), p, outer), p)
  {
    hide RetireAll;
  }

  lemma DrainIsLocal(m: State, groups: map<Gid, Group>, p: Tid, pick: nat, miss: Option<Tid>)
    requires !PcOf(m, p).Pop?
    ensures Local(m, DrainMove(m, p, pick, miss), groups, DrainMove(m.(groups := groups), p, pick, miss), p)
  {
    hide Local, EndExec, TakeCached, RetireCount, Goto;
    match PcOf(m, p) {
      case Run(x, outer, _) => EndIsLocal(m, groups, p, x, Unretired(p), CachePop(outer + 1));
      case CacheRun(x, outer, _) => EndIsLocal(m, groups, p, x, Absorbed, CachePop(outer));
      case CachePop(outer) =>
        if CacheOf(m, p) == [] { GotoIsLocal(m, groups, p, Pop(outer)); } else { CacheIsLocal(m, groups, p, outer); }
      case Retire(outer) => RetireIsLocal(m, groups, p, outer);
      case _ => GotoIsLocal(m, groups, p, PcOf(m, p));
    }
  }

  lemma StateQueueIsLocal(m: State, groups: map<Gid, Group>, p: Tid, x: OpId, st: Sid, outer: nat)
    ensures Local(m, PushState(m, p, x, st, outer), groups, PushState(m.(groups := groups), p, x, st, outer), p)
  {
  }

  lemma StateCountIsLocal(m: State, groups: map<Gid, Group>, p: Tid, st: Sid, outer: nat, inner: nat)
    ensures Local(m, AddState(m, p, st, outer), groups, AddState(m.(groups := groups), p, st, outer), p)
    ensures Local(m, SubState(m, p, st, outer, inner), groups, SubState(m.(groups := groups), p, st, outer, inner), p)
  {
  }

  lemma StateTakeIsLocal(m: State, groups: map<Gid, Group>, p: Tid, st: Sid, outer: nat, inner: nat, i: nat)
    requires i < |StateQueueOf(m, st)|
    ensures Local(m, TakeState(m, p, st, outer, inner, i), groups,
                  TakeState(m.(groups := groups), p, st, outer, inner, i), p)
  {
    hide RemoveAt;
  }

  lemma StateIsLocal(m: State, groups: map<Gid, Group>, p: Tid, pick: nat, miss: Option<Tid>)
    ensures Local(m, StateMove(m, p, pick, miss), groups, StateMove(m.(groups := groups), p, pick, miss), p)
  {
    hide Local, EndExec, PushState, AddState, SubState, TakeState, Goto;
    match PcOf(m, p) {
      case StatePush(x, st, outer) => StateQueueIsLocal(m, groups, p, x, st, outer);
      case StateAdd(st, outer) => StateCountIsLocal(m, groups, p, st, outer, 0);
      case StatePop(st, outer, inner) =>
        if StateQueueOf(m, st) == [] || miss.Some? {
          GotoIsLocal(m, groups, p, PcOf(m, p));
        } else {
          StateTakeIsLocal(m, groups, p, st, outer, inner, pick % |StateQueueOf(m, st)|);
        }
      case StateRun(x, st, outer, inner, _) =>
        EndIsLocal(m, groups, p, x, Unretired(p), StateSub(st, outer, inner + 1));
      case StateSub(st, outer, inner) => StateCountIsLocal(m, groups, p, st, outer, inner);
      case _ => GotoIsLocal(m, groups, p, PcOf(m, p));
    }
  }

  lemma ParkIsLocal(m: State, groups: map<Gid, Group>, p: Tid, pc: Pc, parked: set<Tid>)
    ensures Local(m, Goto(m, p, pc).(parked := parked), groups, Goto(m.(groups := groups), p, pc).(parked := parked), p)
  {
  }

  lemma SleepIsLocal(m: State, groups: map<Gid, Group>, p: Tid)
    requires !PcOf(m, p).Acquire?
    ensures Local(m, SleepMove(m, p), groups, SleepMove(m.(groups := groups), p), p)
  {
    hide Local, Goto;
    ParkIsLocal(m, groups, p, Acquire, m.parked + {p});
    ParkIsLocal(m, groups, p, Pop(0), m.parked - {p});
    GotoIsLocal(m, groups, p, if p in m.closing then Exited else Unpark);
  }

  // ----- the steps that touch a group ----------------------------------------------------------------

  lemma GroupAlike(m: State, m': State, g: Gid, r: Group, r': Group)
    requires Alike(m, m') && r.permits == r'.permits && r.released == r'.released
    ensures var n, n' := m.(groups := m.groups[g := r]), m'.(groups := m'.groups[g := r']);
      Alike(n, n') && forall h: Gid :: QueueOf(n', h) == if h == g then r'.queue else QueueOf(m', h)
  {
    var n, n' := m.(groups := m.groups[g := r]), m'.(groups := m'.groups[g := r']);
    forall h: Gid ensures SameGroup(n, n', h) {
      assert SameGroup(m, m', h);
    }
  }

  lemma GotoInStep(m: State, m': State, n: State, n': State, p: Tid, pc: Pc)
    requires Alike(n, n') && n.workers == m.workers && n.pcs == m.pcs && m.groups.Keys <= n.groups.Keys
    requires forall g: Gid :: QueueOf(n', g) == QueueOf(m', g)
    ensures InStep(m, Goto(n, p, pc), m', Goto(n', p, pc), p) && InStep(m, n, m', n', p)
  {
    forall g: Gid ensures SameGroup(Goto(n, p, pc), Goto(n', p, pc), g) {
      assert SameGroup(n, n', g);
    }
  }

  lemma PermitsInStep(m: State, m': State, p: Tid, g: Gid, n: nat, pc: Pc)
    requires Alike(m, m')
    ensures InStep(m, Goto(SetPermits(m, g, n), p, pc), m', Goto(SetPermits(m', g, n), p, pc), p)
  {
    assert SameGroup(m, m', g);
    hide Alike, InStep, Goto, SameGroup;
    GroupAlike(m, m', g, GroupOf(m, g).(permits := n), GroupOf(m', g).(permits := n));
    GotoInStep(m, m', SetPermits(m, g, n), SetPermits(m', g, n), p, pc);
  }

  function Released(m: State, g: Gid): Group {
    GroupOf(m, g).(released := true, permits := GroupOf(m, g).permits + |Workers(m, g)|)
  }

  predicate MayRelease(m: State, p: Tid, g: Gid) {
    PcOf(m, p).Outside? && Workers(m, g) <= m.closing && !GroupOf(m, g).released
  }

  lemma ReleaseStep(m: State, p: Tid, g: Gid)
    ensures Next(m, p, ReleaseAll(g)) == if MayRelease(m, p, g) then m.(groups := m.groups[g := Released(m, g)]) else m
  {
    hide Workers, GroupOf;
  }

  lemma ReleaseInStep(m: State, m': State, p: Tid, g: Gid)
    requires Alike(m, m')
    ensures InStep(m, Next(m, p, ReleaseAll(g)), m', Next(m', p, ReleaseAll(g)), p)
  {
    assert SameGroup(m, m', g);
    Stays(m, m', p);
    hide Alike, InStep, Next;
    ReleaseStep(m, p, g);
    ReleaseStep(m', p, g);
    GroupAlike(m, m', g, Released(m, g), Released(m', g));
    GotoInStep(m, m', m.(groups := m.groups[g := Released(m, g)]), m'.(groups := m'.groups[g := Released(m', g)]), p,
               PcOf(m, p));
  }

  lemma PushInStep(m: State, m': State, p: Tid, a: Action)
    requires Alike(m, m') && (a.CallPush? || a.CallPushTask?)
    ensures InStep(m, Next(m, p, a), m', Next(m', p, a), p)
  {
    hide Local, InStep, CountNew, PushTask, Alike;
    AlikeIsUpdate(m, m');
    InGroups(m, m', a.g);
    if MayPush(PcOf(m, p)) && a.g in m.groups {
      if a.CallPush? {
        PushOpIsLocal(m, m'.groups, p, a.g, a.st);
        LocalInStep(m, Next(m, p, a), m', Next(m', p, a), p);
      } else if p in m.workers {
        PushTaskIsLocal(m, m'.groups, p, a.g);
        LocalInStep(m, Next(m, p, a), m', Next(m', p, a), p);
      }
    }
    Stays(m, m', p);
  }

  lemma InGroups(m: State, m': State, g: Gid)
    requires Alike(m, m')
    ensures g in m.groups <==> g in m'.groups
  {
    assert SameGroup(m, m', g);
  }

  lemma Stays(m: State, m': State, p: Tid)
    requires Alike(m, m')
    ensures InStep(m, m, m', m', p)
  {
  }

  lemma CloseIsLocal(m: State, groups: map<Gid, Group>, p: Tid, w: Tid)
    ensures Local(m, Next(m, p, Close(w)), groups, Next(m.(groups := groups), p, Close(w)), p)
  {
  }

  lemma CloseInStep(m: State, m': State, p: Tid, w: Tid)
    requires Alike(m, m')
    ensures InStep(m, Next(m, p, Close(w)), m', Next(m', p, Close(w)), p)
  {
    AlikeIsUpdate(m, m');
    CloseIsLocal(m, m'.groups, p, w);
    LocalInStep(m, Next(m, p, Close(w)), m', Next(m', p, Close(w)), p);
    hide *;
  }

  lemma AcquireInStep(m: State, m': State, p: Tid)
    requires Alike(m, m') && PcOf(m, p).Acquire?
    ensures InStep(m, SleepMove(m, p), m', SleepMove(m', p), p)
  {
    hide InStep, SetPermits, Goto;
    var g := if p in m.workers then m.workers[p] else 0;
    assert SameGroup(m, m', g);
    if GroupOf(m, g).permits > 0 {
      PermitsInStep(m, m', p, g, GroupOf(m, g).permits - 1, CheckTerm);
    } else {
      Stays(m, m', p);
    }
  }

  lemma SleepInStep(m: State, m': State, p: Tid)
    requires Alike(m, m')
    ensures InStep(m, SleepMove(m, p), m', SleepMove(m', p), p)
  {
    hide InStep, SleepMove, Alike, Local;
    if PcOf(m, p).Acquire? {
      AcquireInStep(m, m', p);
    } else {
      AlikeIsUpdate(m, m');
      SleepIsLocal(m, m'.groups, p);
      LocalInStep(m, SleepMove(m, p), m', SleepMove(m', p), p);
    }
  }

  lemma PermitInStep(m: State, m': State, p: Tid, pick: nat, miss: Option<Tid>)
    requires Alike(m, m') && PushOf(PcOf(m, p)).Enqueued?
    ensures InStep(m, Next(m, p, Step(pick, miss)), m', Next(m', p, Step(pick, miss)), p)
  {
    hide InStep, SetPermits, Goto;
    var g := PushOf(PcOf(m, p)).g;
    assert SameGroup(m, m', g);
    PermitsInStep(m, m', p, g, GroupOf(m, g).permits + 1, WithPush(PcOf(m, p), NotPushing));
  }

  lemma WorkInStep(m: State, m': State, p: Tid, pick: nat, miss: Option<Tid>)
    requires Alike(m, m')
    ensures InStep(m, StateMove(m, p, pick, miss), m', StateMove(m', p, pick, miss), p)
    ensures !PcOf(m, p).Pop? ==> InStep(m, DrainMove(m, p, pick, miss), m', DrainMove(m', p, pick, miss), p)
  {
    hide InStep, StateMove, DrainMove, Alike, Local;
    AlikeIsUpdate(m, m');
    StateIsLocal(m, m'.groups, p, pick, miss);
    LocalInStep(m, StateMove(m, p, pick, miss), m', StateMove(m', p, pick, miss), p);
    if !PcOf(m, p).Pop? {
      DrainIsLocal(m, m'.groups, p, pick, miss);
      LocalInStep(m, DrainMove(m, p, pick, miss), m', DrainMove(m', p, pick, miss), p);
    }
  }

  /** Steps that do not access a group queue are the same with and without its contents. */
  lemma OwnInStep(m: State, m': State, p: Tid, a: Action)
    requires Alike(m, m') && !Accesses(m, p, a)
    ensures InStep(m, Next(m, p, a), m', Next(m', p, a), p)
  {
    hide InStep, SleepMove, DrainMove, StateMove, SameGroup;
    match a {
      case CallPush(_, _) => PushInStep(m, m', p, a);
      case CallPushTask(_) => PushInStep(m, m', p, a);
      case Close(w) => CloseInStep(m, m', p, w);
      case ReleaseAll(g) => ReleaseInStep(m, m', p, g);
      case Step(pick, miss) =>
        if PushOf(PcOf(m, p)).Enqueued? {
          PermitInStep(m, m', p, pick, miss);
        } else {
          SleepInStep(m, m', p);
          WorkInStep(m, m', p, pick, miss);
        }
    }
  }

  // ----- the steps at the queues ------------------------------------------------------------------------

  lemma OneLess(q: seq<OpId>, i: nat)
    requires i < |q|
    ensures multiset(RemoveAt(q, i)) == multiset(q) - multiset{q[i]}
  {
    assert q == q[..i] + [q[i]] + q[i + 1..];
  }

  /** The step of the task manager that a call comes to, when it takes effect. */
  ghost predicate InEffect(s: System, m: State, p: Tid, g: Gid, b: Bags.Action<OpId>, a: Action) {
    && Alike(Effect(s.m, p, g, b), Next(m, p, a))
    && multiset(QueueOf(Next(m, p, a), g)) == Bags.Next(BagAt(s, g), p, b).items
    && forall h: Gid :: h != g ==> QueueOf(Next(m, p, a), h) == QueueOf(m, h)
  }

  /** What the group queue holds makes no difference. */
  lemma ContentsAlike(m: State, m': State, g: Gid, q: seq<OpId>)
    requires Alike(m, m') && g in m.groups
    ensures Alike(m, SetQueue(m', g, q))
    ensures forall h: Gid :: QueueOf(SetQueue(m', g, q), h) == if h == g then q else QueueOf(m', h)
  {
    assert SameGroup(m, m', g);
    GroupAlike(m, m', g, GroupOf(m, g), GroupOf(m', g).(queue := q));
    assert m.groups[g := m.groups[g]] == m.groups;
    hide Alike;
  }

  lemma PutInEffect(s: System, m: State, p: Tid, g: Gid)
    requires Refines(s, m) && StageAt(s, g, p).Pushing?
    ensures InEffect(s, m, p, g, Bags.Put, Step(0, None))
  {
    assert Fits(s.m, p, g, StageAt(s, g, p));
    assert multiset(QueueOf(m, g)) == BagAt(s, g).items;
    var x, pc := PushOf(PcOf(s.m, p)).x, WithPush(PcOf(s.m, p), Enqueued(g));
    var m1 := SetQueue(m, g, QueueOf(m, g) + [x]);
    AlikeIsUpdate(s.m, m);
    ContentsAlike(s.m, m, g, QueueOf(m, g) + [x]);
    EndIsLocal(s.m, m1.groups, p, x, Queued(g), pc);
    AlikeIsUpdate(s.m, m1);
    LocalInStep(s.m, EndExec(s.m, p, x, Queued(g), pc), m1, EndExec(m1, p, x, Queued(g), pc), p);
    hide Alike, Local, Refines, Fits;
  }

  lemma StartIsLocal(m: State, groups: map<Gid, Group>, p: Tid, x: OpId, outer: nat)
    ensures Local(m, RunNow(m, p, x, outer), groups, RunNow(m.(groups := groups), p, x, outer), p)
  {
  }

  lemma TakeStep(m: State, p: Tid, g: Gid, pick: nat, outer: nat)
    requires PcOf(m, p) == Pop(outer) && p in m.workers && m.workers[p] == g && pick < |QueueOf(m, g)|
    ensures Next(m, p, Step(pick, None)) == TakeQueued(m, p, g, pick, outer)
  {
    hide TakeQueued, QueueOf;
  }

  /** What the thread does with the operation it has taken. */
  lemma TakenAlike(m: State, m': State, p: Tid, g: Gid, pick: nat, outer: nat)
    requires Alike(m, m') && PcOf(m, p) == Pop(outer) && pick < |QueueOf(m', g)| && g in m.groups
    ensures Alike(Effect(m, p, g, Bags.Take(QueueOf(m', g)[pick])), TakeQueued(m', p, g, pick, outer))
    ensures forall h: Gid ::
      QueueOf(TakeQueued(m', p, g, pick, outer), h) == if h == g then RemoveAt(QueueOf(m', g), pick) else QueueOf(m', h)
  {
    var r := QueueOf(m', g)[pick];
    var m1 := SetQueue(m', g, RemoveAt(QueueOf(m', g), pick));
    AlikeIsUpdate(m, m');
    ContentsAlike(m, m', g, RemoveAt(QueueOf(m', g), pick));
    AlikeIsUpdate(m, m1);
    hide Alike, Local, RemoveAt, MoveTo, Goto, Start, SetQueue, QueueOf;
    if r < |m.ops| && m.ops[r].state.Some? {
      var pc := StatePush(r, m.ops[r].state.value, outer);
      EndIsLocal(m, m1.groups, p, r, Carried(p), pc);
      LocalInStep(m, EndExec(m, p, r, Carried(p), pc), m1, EndExec(m1, p, r, Carried(p), pc), p);
    } else {
      StartIsLocal(m, m1.groups, p, r, outer);
      LocalInStep(m, RunNow(m, p, r, outer), m1, RunNow(m1, p, r, outer), p);
    }
  }

  lemma TakeInEffect(s: System, m: State, p: Tid, g: Gid, r: OpId) returns (pick: nat)
    requires Refines(s, m) && StageAt(s, g, p).Popping? && r in BagAt(s, g).items
    ensures InEffect(s, m, p, g, Bags.Take(r), Step(pick, None))
  {
    assert Fits(s.m, p, g, StageAt(s, g, p));
    assert multiset(QueueOf(m, g)) == BagAt(s, g).items;
    assert r in QueueOf(m, g);
    pick :| pick < |QueueOf(m, g)| && QueueOf(m, g)[pick] == r;
    OneLess(QueueOf(m, g), pick);
    AlikeIsUpdate(s.m, m);
    hide Alike, Refines, Fits, RemoveAt, TakeQueued, Effect, Next, QueueOf;
    TakeStep(m, p, g, pick, PcOf(s.m, p).outer);
    TakenAlike(s.m, m, p, g, pick, PcOf(s.m, p).outer);
  }

  /** A bag whose pop may miss is a group queue whose pop may miss. */
  lemma MissInEffect(s: System, m: State, p: Tid, g: Gid) returns (miss: Option<Tid>)
    requires Refines(s, m) && StageAt(s, g, p).Popping? && Bags.MayMiss(BagAt(s, g))
    ensures MayMiss(m, g, miss) && InEffect(s, m, p, g, Bags.Miss, Step(0, miss))
  {
    assert Fits(s.m, p, g, StageAt(s, g, p));
    assert multiset(QueueOf(m, g)) == BagAt(s, g).items;
    miss := None;
    if QueueOf(m, g) != [] {
      assert QueueOf(m, g)[0] in BagAt(s, g).items;
      var q: Tid :| Bags.StageOf(BagAt(s, g), q).Pushed?;
      assert Fits(s.m, q, g, StageAt(s, g, q));
      miss := Some(q);
    }
    AlikeIsUpdate(s.m, m);
    GotoIsLocal(s.m, m.groups, p, Retire(PcOf(s.m, p).outer));
    LocalInStep(s.m, Goto(s.m, p, Retire(PcOf(s.m, p).outer)), m, Goto(m, p, Retire(PcOf(s.m, p).outer)), p);
    hide Alike, Local, Refines, Fits, Goto;
  }

  // ----- runs ---------------------------------------------------------------------------------------------

  /** The bag of one group has changed, at one thread's call. */
  ghost predicate BagStep(s: System, s': System, p: Tid, g: Gid) {
    && (forall h: Gid, q: Tid :: h != g || q != p ==> StageAt(s', h, q) == StageAt(s, h, q))
    && (forall h: Gid :: h != g ==> BagAt(s', h) == BagAt(s, h))
  }

  lemma BagMoves(s: System, n: State, p: Tid, g: Gid, b: Bags.Action<OpId>)
    ensures BagStep(s, System(n, s.bags[g := Bags.Next(BagAt(s, g), p, b)]), p, g)
  {
    Bags.OnlyOneMoves(BagAt(s, g), p, Some(b));
    hide Bags.Next;
  }

  /** What a step at the queue may do to the thread. */
  ghost predicate PcStep(m: State, n: State, p: Tid) {
    && n.workers == m.workers && m.groups == n.groups
    && forall q: Tid :: q != p ==> PcOf(n, q) == PcOf(m, q)
  }

  lemma EffectPc(m: State, p: Tid, g: Gid, b: Bags.Action<OpId>)
    ensures PcStep(m, Effect(m, p, g, b), p)
    ensures b.Put? && PushOf(PcOf(m, p)).Counted? ==> PushOf(PcOf(Effect(m, p, g, b), p)) == Enqueued(g)
  {
  }

  lemma StaysFit(s: System, s': System, p: Tid, g: Gid)
    requires BagStep(s, s', p, g) && PcStep(s.m, s'.m, p)
    requires (forall q: Tid :: OneCall(s, q)) && (forall q: Tid, h: Gid :: Fits(s.m, q, h, StageAt(s, h, q)))
    requires StageAt(s, g, p).Outside? ==> !InCall(s, p)
    requires Fits(s'.m, p, g, StageAt(s', g, p))
    ensures (forall q: Tid :: OneCall(s', q)) && (forall q: Tid, h: Gid :: Fits(s'.m, q, h, StageAt(s', h, q)))
  {
    forall q: Tid ensures OneCall(s', q) {
      assert OneCall(s, q);
    }
    forall q: Tid, h: Gid ensures Fits(s'.m, q, h, StageAt(s', h, q)) {
      assert Fits(s.m, q, h, StageAt(s, h, q)) && OneCall(s, p);
    }
  }

  lemma QueuesFollow(s: System, s': System, m: State, m': State, p: Tid, g: Gid)
    requires SameQueues(s, m) && BagStep(s, s', p, g) && multiset(QueueOf(m', g)) == BagAt(s', g).items
    requires forall h: Gid :: h != g ==> QueueOf(m', h) == QueueOf(m, h)
    ensures SameQueues(s', m')
  {
  }

  /** A step of the bag that is enabled fits the thread that makes it. */
  lemma Enabled(s: System, p: Tid, g: Gid, b: Bags.Action<OpId>)
    requires Bags.Next(BagAt(s, g), p, b) != BagAt(s, g) && Fits(s.m, p, g, StageAt(s, g, p))
    requires StageAt(s, g, p).Outside? ==> MayCall(s.m, p, g, b)
    ensures var s' := System(Effect(s.m, p, g, b), s.bags[g := Bags.Next(BagAt(s, g), p, b)]);
      Fits(s'.m, p, g, StageAt(s', g, p))
    ensures b.Put? ==> StageAt(s, g, p).Pushing?
    ensures b.Take? ==> StageAt(s, g, p).Popping? && b.r in BagAt(s, g).items
    ensures b.Miss? ==> StageAt(s, g, p).Popping? && Bags.MayMiss(BagAt(s, g))
    ensures b.CallPush? || b.CallPop? || b.Return? ==>
      Effect(s.m, p, g, b) == s.m && Bags.Next(BagAt(s, g), p, b).items == BagAt(s, g).items
  {
    EffectPc(s.m, p, g, b);
    hide Bags.MayMiss;
  }

  /** The step of the task manager, if any, that matches a step at a queue. */
  lemma AtQueue(s: System, m: State, p: Tid, g: Gid, b: Bags.Action<OpId>) returns (a: Option<Action>)
    requires Refines(s, m) && Bags.Next(BagAt(s, g), p, b) != BagAt(s, g)
    requires StageAt(s, g, p).Outside? ==> MayCall(s.m, p, g, b)
    ensures var m' := if a.Some? then Next(m, p, a.value) else m;
      && Alike(Effect(s.m, p, g, b), m') && multiset(QueueOf(m', g)) == Bags.Next(BagAt(s, g), p, b).items
      && forall h: Gid :: h != g ==> QueueOf(m', h) == QueueOf(m, h)
  {
    assert Fits(s.m, p, g, StageAt(s, g, p)) && multiset(QueueOf(m, g)) == BagAt(s, g).items;
    Enabled(s, p, g, b);
    hide Fits, Bags.Next, Next, Effect, Alike;
    match b {
      case Put =>
        PutInEffect(s, m, p, g);
        a := Some(Step(0, None));
      case Take(r) =>
        var pick := TakeInEffect(s, m, p, g, r);
        a := Some(Step(pick, None));
      case Miss =>
        var miss := MissInEffect(s, m, p, g);
        a := Some(Step(0, miss));
      case _ =>
        a := None;
    }
  }

  lemma SameCalls(s: System, s': System, p: Tid)
    requires OneCall(s, p) && s'.bags == s.bags
    ensures OneCall(s', p)
  {
    assert forall g: Gid :: StageAt(s', g, p) == StageAt(s, g, p);
  }

  lemma OwnRefines(s: System, m: State, p: Tid, a: Action)
    requires Refines(s, m) && !InCall(s, p) && !Accesses(s.m, p, a)
    ensures Refines(s.(m := Next(s.m, p, a)), Next(m, p, a))
  {
    OwnInStep(s.m, m, p, a);
    var s' := s.(m := Next(s.m, p, a));
    forall q: Tid, g: Gid ensures Fits(s'.m, q, g, StageAt(s', g, q)) {
      assert Fits(s.m, q, g, StageAt(s, g, q)) && StageAt(s', g, q) == StageAt(s, g, q);
    }
    forall q: Tid ensures OneCall(s', q) {
      SameCalls(s, s', q);
    }
    hide Next, Alike, Accesses, OneCall;
  }

  /** Every step over the called queues is a step of the task manager or nothing to it. */
  lemma MoveRefines(s: System, m: State, p: Tid, a: Move) returns (b: Option<Action>)
    requires Refines(s, m)
    ensures Refines(Moved(s, p, a), if b.Some? then Next(m, p, b.value) else m)
  {
    b := None;
    match a {
      case Own(act) =>
        if !InCall(s, p) && !Accesses(s.m, p, act) {
          OwnRefines(s, m, p, act);
          b := Some(act);
        }
      case At(g, act) =>
        if Moved(s, p, a) != s {
          b := AtQueue(s, m, p, g, act);
          AtRefines(s, m, p, g, act, if b.Some? then Next(m, p, b.value) else m);
        }
    }
    hide Next, Bags.Next, Alike, Effect;
  }

  lemma AtRefines(s: System, m: State, p: Tid, g: Gid, b: Bags.Action<OpId>, m': State)
    requires Refines(s, m) && Bags.Next(BagAt(s, g), p, b) != BagAt(s, g)
    requires StageAt(s, g, p).Outside? ==> MayCall(s.m, p, g, b) && !InCall(s, p)
    requires Alike(Effect(s.m, p, g, b), m') && multiset(QueueOf(m', g)) == Bags.Next(BagAt(s, g), p, b).items
    requires forall h: Gid :: h != g ==> QueueOf(m', h) == QueueOf(m, h)
    ensures Refines(System(Effect(s.m, p, g, b), s.bags[g := Bags.Next(BagAt(s, g), p, b)]), m')
  {
    assert Fits(s.m, p, g, StageAt(s, g, p));
    hide Bags.Next, Effect, Alike, Fits, OneCall, MayCall, InCall, QueueOf;
    var s' := System(Effect(s.m, p, g, b), s.bags[g := Bags.Next(BagAt(s, g), p, b)]);
    BagMoves(s, s'.m, p, g, b);
    EffectPc(s.m, p, g, b);
    Enabled(s, p, g, b);
    StaysFit(s, s', p, g);
    QueuesFollow(s, s', m, m', p, g);
  }

  ghost function Run(s: System, t: seq<(Tid, Move)>): System
    decreases |t|
  {
    if t == [] then s else Run(Moved(s, t[0].0, t[0].1), t[1..])
  }

  function Start(groups: set<Gid>, workers: map<Tid, Gid>): System { System(Init(groups, workers), map[]) }

  lemma StartRefines(groups: set<Gid>, workers: map<Tid, Gid>)
    ensures Refines(Start(groups, workers), Init(groups, workers))
  {
  }

  lemma {:induction false} RunRefines(s: System, m: State, t: seq<(Tid, Move)>) returns (u: seq<(Tid, Action)>)
    requires Refines(s, m)
    ensures Refines(Run(s, t), RunAll(m, u))
    decreases |t|
  {
    hide Refines, Next, Moved;
    if t == [] {
      u := [];
    } else {
      var b := MoveRefines(s, m, t[0].0, t[0].1);
      if b.Some? {
        u := RunRefines(Moved(s, t[0].0, t[0].1), Next(m, t[0].0, b.value), t[1..]);
        var v := [(t[0].0, b.value)] + u;
        assert v[1..] == u;
        u := v;
      } else {
        u := RunRefines(Moved(s, t[0].0, t[0].1), m, t[1..]);
      }
    }
  }

  /** The task manager over called queues runs as the task manager of `TaskManager` does. */
  lemma EveryRunIsAManagerRun(groups: set<Gid>, workers: map<Tid, Gid>, t: seq<(Tid, Move)>)
    ensures exists u: seq<(Tid, Action)> :: Refines(Run(Start(groups, workers), t), RunAll(Init(groups, workers), u))
  {
    hide Refines, Run, RunAll, Init;
    StartRefines(groups, workers);
    var u := RunRefines(Start(groups, workers), Init(groups, workers), t);
  }

  /** So what holds of the latter holds here: on a zero counter everything has run once, and the queues are empty. */
  lemma WaitMeansAllRan(groups: set<Gid>, workers: map<Tid, Gid>, t: seq<(Tid, Move)>)
    requires Run(Start(groups, workers), t).m.counter == 0
    ensures var s := Run(Start(groups, workers), t);
      && (forall x: OpId | x < |s.m.ops| :: s.m.ops[x].runs == 1)
      && (forall g: Gid :: BagAt(s, g).items == multiset{})
  {
    EveryRunIsAManagerRun(groups, workers, t);
    var u: seq<(Tid, Action)> :| Refines(Run(Start(groups, workers), t), RunAll(Init(groups, workers), u));
    TaskManagerRuns.WaitMeansAllRan(groups, workers, u);
    hide Run, RunAll, Init, Fits, OneCall;
  }
}
