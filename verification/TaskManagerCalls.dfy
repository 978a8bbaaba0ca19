/**
  The calls of the task manager and what becomes of the operations they push: whom an operation
  belongs to never changes, each is run by a worker of its group or by the owner of its state, and a
  worker that is left alone finishes its group's work.
 */
module TaskManagerCalls {
  import opened Common
  import opened TaskManager
  import CacheQueues

  // ----- each step starts at most one exec ------------------------------------------------------

  predicate Executing(pc: Pc) { pc.Run? || pc.StateRun? || pc.CacheRun? }

  /** The operation whose exec starts. */
  function Started(m: State, m': State, p: Tid): Option<OpId> {
    if !Executing(PcOf(m, p)) && Executing(PcOf(m', p)) then Some(PcOf(m', p).x) else None
  }

  ghost predicate OneRun(m: State, m': State, x: Option<OpId>) {
    && |m'.ops| == |m.ops|
    && forall y: OpId :: y < |m.ops| ==>
         m'.ops[y].group == m.ops[y].group && m'.ops[y].state == m.ops[y].state
         && m'.ops[y].runs == m.ops[y].runs + if x == Some(y) then 1 else 0
  }

  ghost predicate OthersWait(m: State, m': State, p: Tid) {
    forall q: Tid :: q != p ==> PcOf(m', q) == PcOf(m, q)
  }

  /** What a step of `p` does to run counts and program counters. */
  ghost predicate Counts(m: State, m': State, p: Tid) {
    OneRun(m, m', Started(m, m', p)) && OthersWait(m, m', p)
  }

  /** A step that leaves the operations alone and starts nothing. */
  lemma QuietCounts(m: State, m': State, p: Tid, pc: Pc)
    requires m'.ops == m.ops && m'.pcs == m.pcs[p := pc] && (Executing(pc) ==> Executing(PcOf(m, p)))
    ensures Counts(m, m', p)
  {
  }

  lemma AcquireCounts(m: State, p: Tid)
    requires PcOf(m, p).Acquire?
    ensures Counts(m, SleepMove(m, p), p)
  {
    hide Counts, GroupOf;
    GotoCounts(m, p, Acquire);
    if SleepMove(m, p) != m {
      QuietCounts(m, SleepMove(m, p), p, CheckTerm);
    }
  }

  lemma SleepCounts(m: State, p: Tid)
    requires !Executing(PcOf(m, p))
    ensures Counts(m, SleepMove(m, p), p)
  {
    hide Counts, GroupOf;
    match PcOf(m, p)
    case Park => QuietCounts(m, SleepMove(m, p), p, Acquire);
    case Acquire => AcquireCounts(m, p);
    case CheckTerm => GotoCounts(m, p, if p in m.closing then Exited else Unpark);
    case Unpark => QuietCounts(m, SleepMove(m, p), p, Pop(0));
    case _ => GotoCounts(m, p, PcOf(m, p));
  }

  lemma QueueCounts(m: State, p: Tid, g: Gid, i: nat, outer: nat)
    requires i < |QueueOf(m, g)| && !Executing(PcOf(m, p))
    ensures Counts(m, TakeQueued(m, p, g, i, outer), p)
  {
    hide RemoveAt;
  }

  lemma CacheCounts(m: State, p: Tid, outer: nat)
    requires CacheOf(m, p) != [] && !Executing(PcOf(m, p))
    ensures Counts(m, TakeCached(m, p, outer), p)
  {
  }

  lemma RetireCounts(m: State, p: Tid, outer: nat)
    requires !Executing(PcOf(m, p))
    ensures Counts(m, RetireCount(m, p, outer), p)
  {
  }

  lemma GotoCounts(m: State, p: Tid, pc: Pc)
    requires Executing(pc) ==> Executing(PcOf(m, p))
    ensures Counts(m, Goto(m, p, pc), p) && Counts(m, m, p)
  {
  }

  lemma PlaceOnly(m: State, x: OpId, place: Place)
    ensures OneRun(m, MoveTo(m, x, place), None) && MoveTo(m, x, place).pcs == m.pcs
  {
    if x < |m.ops| {
      MovedRuns(m.ops, MoveTo(m, x, place).ops, x, place);
    } else {
      assert MoveTo(m, x, place) == m;
    }
  }

  lemma MovedRuns(ops: seq<Info>, ops': seq<Info>, x: OpId, place: Place)
    requires x < |ops| && ops' == ops[x := ops[x].(place := place)]
    ensures |ops'| == |ops| && forall y: OpId :: y < |ops| ==>
      ops'[y].group == ops[y].group && ops'[y].state == ops[y].state && ops'[y].runs == ops[y].runs
  {
  }

  /** The thread goes on after a step that starts nothing. */
  lemma GoesOn(m: State, n: State, p: Tid, pc: Pc)
    requires OneRun(m, n, None) && n.pcs == m.pcs && (Executing(pc) ==> Executing(PcOf(m, p)))
    ensures Counts(m, Goto(n, p, pc), p)
  {
  }

  lemma EndCounts(m: State, p: Tid, x: OpId, place: Place, pc: Pc)
    requires !Executing(pc)
    ensures Counts(m, EndExec(m, p, x, place, pc), p)
  {
    hide MoveTo, OneRun, Counts;
    PlaceOnly(m, x, place);
    GoesOn(m, MoveTo(m, x, place), p, pc);
  }

  lemma DrainCounts(m: State, p: Tid, pick: nat, miss: Option<Tid>)
    requires PushOf(PcOf(m, p)).NotPushing?
    ensures Counts(m, DrainMove(m, p, pick, miss), p)
  {
    hide Counts, TakeQueued, EndExec, TakeCached, RetireCount, Goto, MayMiss, QueueOf;
    GotoCounts(m, p, PcOf(m, p));
    match PcOf(m, p) {
      case Pop(outer) =>
        var g := if p in m.workers then m.workers[p] else 0;
        if MayMiss(m, g, miss) {
          GotoCounts(m, p, Retire(outer));
        } else {
          NoMiss(m, g, miss);
          QueueCounts(m, p, g, pick % |QueueOf(m, g)|, outer);
        }
      case Run(x, outer, _) => EndCounts(m, p, x, Unretired(p), CachePop(outer + 1));
      case CachePop(outer) =>
        if CacheOf(m, p) == [] { GotoCounts(m, p, Pop(outer)); } else { CacheCounts(m, p, outer); }
      case CacheRun(x, outer, _) => EndCounts(m, p, x, Absorbed, CachePop(outer));
      case Retire(outer) => RetireCounts(m, p, outer);
      case _ =>
    }
  }

  lemma NoMiss(m: State, g: Gid, miss: Option<Tid>)
    requires !MayMiss(m, g, miss)
    ensures QueueOf(m, g) != []
  {
  }

  lemma StatePushCounts(m: State, p: Tid, x: OpId, st: Sid, outer: nat)
    requires !Executing(PcOf(m, p))
    ensures Counts(m, PushState(m, p, x, st, outer), p)
  {
  }

  lemma StateAddCounts(m: State, p: Tid, st: Sid, outer: nat, inner: nat)
    requires !Executing(PcOf(m, p))
    ensures Counts(m, AddState(m, p, st, outer), p) && Counts(m, SubState(m, p, st, outer, inner), p)
  {
  }

  lemma StateTakeCounts(m: State, p: Tid, st: Sid, outer: nat, inner: nat, i: nat)
    requires i < |StateQueueOf(m, st)| && !Executing(PcOf(m, p))
    ensures Counts(m, TakeState(m, p, st, outer, inner, i), p)
  {
    hide RemoveAt;
  }

  lemma StateCounts(m: State, p: Tid, pick: nat, miss: Option<Tid>)
    requires PushOf(PcOf(m, p)).NotPushing?
    ensures Counts(m, StateMove(m, p, pick, miss), p)
  {
    hide Counts, PushState, AddState, TakeState, SubState, EndExec, StateQueueOf;
    GotoCounts(m, p, PcOf(m, p));
    match PcOf(m, p) {
      case StatePush(x, st, outer) => StatePushCounts(m, p, x, st, outer);
      case StateAdd(st, outer) => StateAddCounts(m, p, st, outer, 0);
      case StatePop(st, outer, inner) =>
        if StateQueueOf(m, st) != [] && miss.None? {
          StateTakeCounts(m, p, st, outer, inner, pick % |StateQueueOf(m, st)|);
        }
      case StateRun(x, st, outer, inner, _) =>
        EndCounts(m, p, x, Unretired(p), StateSub(st, outer, inner + 1));
      case StateSub(st, outer, inner) => StateAddCounts(m, p, st, outer, inner);
      case _ =>
    }
  }

  lemma SameOps(m: State, n: State)
    requires n.ops == m.ops
    ensures OneRun(m, n, None)
  {
  }

  lemma PushStepCounts(m: State, p: Tid, pick: nat, miss: Option<Tid>)
    requires !PushOf(PcOf(m, p)).NotPushing?
    ensures Counts(m, Next(m, p, Step(pick, miss)), p)
  {
    hide SleepMove, DrainMove, StateMove, MoveTo, OneRun, Counts, Goto, GroupOf;
    match PushOf(PcOf(m, p))
    case Counted(x, g) =>
      var n := SetQueue(MoveTo(m, x, Queued(g)), g, QueueOf(m, g) + [x]);
      PlaceOnly(m, x, Queued(g));
      SameRuns(m, MoveTo(m, x, Queued(g)), n);
      GoesOn(m, n, p, WithPush(PcOf(m, p), Enqueued(g)));
    case Enqueued(g) =>
      var n := SetPermits(m, g, GroupOf(m, g).permits + 1);
      SameOps(m, n);
      GoesOn(m, n, p, WithPush(PcOf(m, p), NotPushing));
  }

  lemma SameRuns(m: State, n: State, n': State)
    requires OneRun(m, n, None) && n'.ops == n.ops
    ensures OneRun(m, n', None)
  {
  }

  /** A step of a thread starts at most one exec, its own. */
  lemma StepCounts(m: State, p: Tid, pick: nat, miss: Option<Tid>)
    ensures Counts(m, Next(m, p, Step(pick, miss)), p)
  {
    hide Counts, SleepMove, DrainMove, StateMove;
    var pc := PcOf(m, p);
    if !PushOf(pc).NotPushing? {
      PushStepCounts(m, p, pick, miss);
    } else if pc.StatePush? || pc.StateAdd? || pc.StatePop? || pc.StateRun? || pc.StateSub? {
      StateCounts(m, p, pick, miss);
    } else if pc.CachePop? || pc.CacheRun? || pc.Run? || pc.Pop? || pc.Retire? {
      DrainCounts(m, p, pick, miss);
    } else {
      SleepCounts(m, p);
    }
  }

  /** A call appends an operation that has not run. */
  ghost predicate Appends(m: State, m': State, p: Tid, g: Gid, state: Option<Sid>) {
    && |m'.ops| == |m.ops| + 1 && m'.ops[|m.ops|].runs == 0
    && m'.ops[|m.ops|].group == g && m'.ops[|m.ops|].state == state
    && (forall y: OpId :: y < |m.ops| ==>
          m'.ops[y].group == m.ops[y].group && m'.ops[y].state == m.ops[y].state && m'.ops[y].runs == m.ops[y].runs)
    && Executing(PcOf(m', p)) == Executing(PcOf(m, p)) && OthersWait(m, m', p)
  }

  lemma CallAppends(m: State, p: Tid, g: Gid, state: Option<Sid>)
    requires MayPush(PcOf(m, p))
    ensures Appends(m, CountNew(m, p, g, state), p, g, state)
  {
  }

  lemma EvictLeaves(m: State, p: Tid, g: Gid)
    requires MayPush(PcOf(m, p)) && CacheOf(m, p) != []
    ensures var n := Evict(m, p, g);
      OneRun(m, n, None) && Executing(PcOf(n, p)) == Executing(PcOf(m, p)) && OthersWait(m, n, p)
  {
  }

  lemma CacheAppends(m: State, p: Tid, g: Gid)
    ensures Appends(m, CacheNew(m, p, g), p, g, None)
  {
  }

  lemma TaskAppends(m: State, p: Tid, g: Gid)
    requires MayPush(PcOf(m, p)) && p in m.workers
    ensures Appends(m, PushTask(m, p, g), p, g, None)
  {
    hide Evict, CacheNew, CountNew;
    CallAppends(m, p, g, None);
    if |CacheOf(m, p)| < CACHE_SIZE {
      CacheAppends(m, p, g);
    } else {
      EvictLeaves(m, p, g);
      CacheAppends(Evict(m, p, g), p, g);
    }
  }

  /** The operation that a call pushes belongs to the group and the state that the call names. */
  lemma CallsAppend(s: State, p: Tid, a: Action)
    requires (a.CallPush? || a.CallPushTask?) && MayPush(PcOf(s, p)) && a.g in s.groups
    requires a.CallPushTask? ==> p in s.workers
    ensures Appends(s, Next(s, p, a), p, a.g, if a.CallPush? then a.st else None)
  {
    hide Appends, CountNew, PushTask;
    if a.CallPush? {
      CallAppends(s, p, a.g, a.st);
    } else {
      TaskAppends(s, p, a.g);
    }
  }

  lemma ShutdownCounts(m: State, t: Tid, b: Action)
    requires b.Close? || b.ReleaseAll?
    ensures var m' := Next(m, t, b);
      OneRun(m, m', None) && OthersWait(m, m', t) && PcOf(m', t) == PcOf(m, t)
  {
  }

  // ----- where operations go ------------------------------------------------------------------------

  /** Where a step of `p` may move an operation of group `g` and state `st`. */
  predicate MayMove(pl: Place, pl': Place, p: Tid, g: Gid, st: Option<Sid>, workers: map<Tid, Gid>) {
    match pl
    case Staged(q) => q == p && pl' == Queued(g)
    case Queued(h) =>
      && h == g && p in workers && workers[p] == g
      && pl' == (if st.Some? then Carried(p) else Running(p))
    case Carried(q) => q == p && st.Some? && pl' == InState(st.value)
    case InState(t) => st == Some(t) && pl' == Running(p)
    case Running(q) => q == p && pl' == Unretired(p)
    case Unretired(q) => q == p && pl' == Retired
    case Cached(q) => q == p && p in workers && workers[p] == g && (pl' == CacheRunning(p) || pl' == Staged(p))
    case CacheRunning(q) => q == p && pl' == Absorbed
    case Retired => false
    case Absorbed => false
  }

  /** Every operation stays where it is, or moves as it may. */
  ghost predicate AllMove(s: State, s': State, p: Tid) {
    && |s.ops| <= |s'.ops| && s'.workers == s.workers
    && forall x: OpId :: x < |s.ops| ==>
         && s'.ops[x].group == s.ops[x].group && s'.ops[x].state == s.ops[x].state
         && (s'.ops[x].place == s.ops[x].place
             || MayMove(s.ops[x].place, s'.ops[x].place, p, s.ops[x].group, s.ops[x].state, s.workers))
  }

  lemma OneMoves(s: State, s': State, p: Tid, x: OpId)
    requires x < |s.ops| == |s'.ops| && s'.workers == s.workers
    requires s'.ops[x].group == s.ops[x].group && s'.ops[x].state == s.ops[x].state
    requires MayMove(s.ops[x].place, s'.ops[x].place, p, s.ops[x].group, s.ops[x].state, s.workers)
    requires forall y: OpId :: y < |s.ops| && y != x ==> s'.ops[y] == s.ops[y]
    ensures AllMove(s, s', p)
  {
    hide MayMove;
  }

  lemma BagHas(s: State, pl: Place, x: OpId)
    requires Inv(s) && InBag(pl) && x in BagOf(s, pl)
    ensures x < |s.ops| && s.ops[x].place == pl
  {
    assert BagInv(s) && BagOf(s, pl)[x] > 0;
  }

  lemma EnqueueMoves(s: State, p: Tid, x: OpId, g: Gid)
    requires Inv(s) && PushOf(PcOf(s, p)) == Counted(x, g)
    ensures AllMove(s, Enqueue(s, p, x, g), p)
  {
    assert ThreadInv(s, p);
    hide Inv;
    OneMoves(s, Enqueue(s, p, x, g), p, x);
  }

  lemma TakeMoves(s: State, p: Tid, i: nat, outer: nat)
    requires Inv(s) && PcOf(s, p) == Pop(outer) && p in s.workers && i < |QueueOf(s, s.workers[p])|
    ensures AllMove(s, TakeQueued(s, p, s.workers[p], i, outer), p)
  {
    var g := s.workers[p];
    var x := QueueOf(s, g)[i];
    assert x in QueueOf(s, g);
    BagHas(s, Queued(g), x);
    assert OpInv(s, x);
    hide Inv, RemoveAt;
    OneMoves(s, TakeQueued(s, p, g, i, outer), p, x);
  }

  lemma CachedMoves(s: State, p: Tid, outer: nat)
    requires Inv(s) && PcOf(s, p) == CachePop(outer) && CacheOf(s, p) != []
    ensures AllMove(s, TakeCached(s, p, outer), p)
  {
    var x := CacheOf(s, p)[|CacheOf(s, p)| - 1];
    assert x in CacheOf(s, p);
    BagHas(s, Cached(p), x);
    assert OpInv(s, x);
    hide Inv;
    OneMoves(s, TakeCached(s, p, outer), p, x);
  }

  lemma InExec(s: State, p: Tid)
    requires Inv(s) && Executing(PcOf(s, p))
    ensures var x := PcOf(s, p).x;
      x < |s.ops| && s.ops[x].place == if PcOf(s, p).CacheRun? then CacheRunning(p) else Running(p)
  {
    assert ThreadInv(s, p);
    hide CountInv, BagInv, OpInv, StateInv, CacheInv;
  }

  lemma MovedTo(s: State, p: Tid, x: OpId, place: Place, pc: Pc)
    requires x < |s.ops| && MayMove(s.ops[x].place, place, p, s.ops[x].group, s.ops[x].state, s.workers)
    ensures AllMove(s, EndExec(s, p, x, place, pc), p)
  {
    hide MayMove, AllMove;
    OneMoves(s, EndExec(s, p, x, place, pc), p, x);
  }

  lemma EndMoves(s: State, p: Tid, pc: Pc)
    requires Inv(s) && Executing(PcOf(s, p))
    ensures var x := PcOf(s, p).x;
      AllMove(s, EndExec(s, p, x, if PcOf(s, p).CacheRun? then Absorbed else Unretired(p), pc), p)
  {
    hide Inv, AllMove, EndExec;
    InExec(s, p);
    MovedTo(s, p, PcOf(s, p).x, if PcOf(s, p).CacheRun? then Absorbed else Unretired(p), pc);
  }

  lemma RetireMoves(s: State, p: Tid, outer: nat)
    ensures AllMove(s, RetireCount(s, p, outer), p)
  {
  }

  lemma StatePushMoves(s: State, p: Tid, x: OpId, st: Sid, outer: nat)
    requires Inv(s) && PcOf(s, p) == StatePush(x, st, outer)
    ensures AllMove(s, PushState(s, p, x, st, outer), p)
  {
    assert ThreadInv(s, p);
    hide Inv;
    OneMoves(s, PushState(s, p, x, st, outer), p, x);
  }

  lemma StateTakeMoves(s: State, p: Tid, st: Sid, outer: nat, inner: nat, i: nat)
    requires Inv(s) && PcOf(s, p) == StatePop(st, outer, inner) && i < |StateQueueOf(s, st)|
    ensures AllMove(s, TakeState(s, p, st, outer, inner, i), p)
  {
    var x := StateQueueOf(s, st)[i];
    assert x in StateQueueOf(s, st);
    BagHas(s, InState(st), x);
    assert OpInv(s, x);
    hide Inv, RemoveAt;
    OneMoves(s, TakeState(s, p, st, outer, inner, i), p, x);
  }

  /** A step that leaves the operations alone. */
  lemma NoneMove(s: State, s': State, p: Tid)
    requires s'.ops == s.ops && s'.workers == s.workers
    ensures AllMove(s, s', p)
  {
  }

  lemma SleepMovesNone(s: State, p: Tid)
    ensures AllMove(s, SleepMove(s, p), p)
  {
    hide AllMove, GroupOf;
    NoneMove(s, SleepMove(s, p), p);
  }

  lemma IsWorkerHere(s: State, p: Tid)
    requires Inv(s) && !PcOf(s, p).Outside?
    ensures p in s.workers
  {
    assert ThreadInv(s, p);
    hide CountInv, BagInv, OpInv, StateInv, CacheInv;
  }

  lemma DrainMoves(s: State, p: Tid, pick: nat, miss: Option<Tid>)
    requires Inv(s) && PushOf(PcOf(s, p)).NotPushing?
    ensures AllMove(s, DrainMove(s, p, pick, miss), p)
  {
    hide Inv, AllMove, TakeQueued, EndExec, TakeCached, RetireCount, Goto, MayMiss, QueueOf;
    if !PcOf(s, p).Outside? { IsWorkerHere(s, p); }
    match PcOf(s, p) {
      case Pop(outer) =>
        if MayMiss(s, s.workers[p], miss) {
          GotoMovesNone(s, p, Retire(outer));
        } else {
          NoMiss(s, s.workers[p], miss);
          TakeMoves(s, p, pick % |QueueOf(s, s.workers[p])|, outer);
        }
      case Run(x, outer, _) => EndMoves(s, p, CachePop(outer + 1));
      case CachePop(outer) =>
        if CacheOf(s, p) == [] { GotoMovesNone(s, p, Pop(outer)); } else { CachedMoves(s, p, outer); }
      case CacheRun(x, outer, _) => EndMoves(s, p, CachePop(outer));
      case Retire(outer) => RetireMoves(s, p, outer);
      case _ => GotoMovesNone(s, p, PcOf(s, p));
    }
  }

  lemma GotoMovesNone(s: State, p: Tid, pc: Pc)
    ensures AllMove(s, Goto(s, p, pc), p) && AllMove(s, s, p)
  {
  }

  lemma StateCountMovesNone(s: State, p: Tid, st: Sid, outer: nat, inner: nat)
    ensures AllMove(s, AddState(s, p, st, outer), p) && AllMove(s, SubState(s, p, st, outer, inner), p)
  {
  }

  lemma StateMoves(s: State, p: Tid, pick: nat, miss: Option<Tid>)
    requires Inv(s) && PushOf(PcOf(s, p)).NotPushing?
    ensures AllMove(s, StateMove(s, p, pick, miss), p)
  {
    hide Inv, AllMove, PushState, AddState, TakeState, SubState, EndExec, StateQueueOf;
    match PcOf(s, p) {
      case StatePush(x, st, outer) => StatePushMoves(s, p, x, st, outer);
      case StateAdd(st, outer) => StateCountMovesNone(s, p, st, outer, 0);
      case StatePop(st, outer, inner) =>
        if StateQueueOf(s, st) == [] || miss.Some? {
          GotoMovesNone(s, p, PcOf(s, p));
        } else {
          StateTakeMoves(s, p, st, outer, inner, pick % |StateQueueOf(s, st)|);
        }
      case StateRun(x, st, outer, inner, _) => EndMoves(s, p, StateSub(st, outer, inner + 1));
      case StateSub(st, outer, inner) => StateCountMovesNone(s, p, st, outer, inner);
      case _ => GotoMovesNone(s, p, PcOf(s, p));
    }
  }

  lemma EvictMoves(s: State, p: Tid, g: Gid)
    requires Inv(s) && MayPush(PcOf(s, p)) && p in s.workers && s.workers[p] == g && CacheOf(s, p) != []
    ensures AllMove(s, Evict(s, p, g), p)
  {
    var x := CacheOf(s, p)[0];
    assert x in CacheOf(s, p);
    BagHas(s, Cached(p), x);
    assert OpInv(s, x);
    hide Inv;
    OneMoves(s, Evict(s, p, g), p, x);
  }

  lemma NewMovesNone(s: State, s1: State, p: Tid, g: Gid, st: Option<Sid>)
    ensures MayPush(PcOf(s, p)) ==> AllMove(s, CountNew(s, p, g, st), p)
    ensures AllMove(s, s1, p) ==> AllMove(s, CacheNew(s1, p, g), p)
  {
  }

  lemma CallMoves(s: State, p: Tid, a: Action)
    requires Inv(s) && (a.CallPush? || a.CallPushTask?)
    ensures AllMove(s, Next(s, p, a), p)
  {
    hide Inv, AllMove, CountNew, CacheNew, Evict;
    GotoMovesNone(s, p, PcOf(s, p));
    if MayPush(PcOf(s, p)) {
      NewMovesNone(s, s, p, a.g, if a.CallPush? then a.st else None);
      if a.CallPushTask? && p in s.workers && s.workers[p] == a.g && |CacheOf(s, p)| >= CACHE_SIZE {
        EvictMoves(s, p, a.g);
        NewMovesNone(s, Evict(s, p, a.g), p, a.g, None);
      }
    }
  }

  /**
    Every step of every thread, in any state of the manager: each operation keeps its group and its
    state, and moves only along its way: from its pusher to the queue of its group, from there into
    the hands of a worker of that group, to be run by it or carried to the queue of its state.
   */
  lemma OperationsGoTheirWay(s: State, p: Tid, a: Action)
    requires Inv(s)
    ensures AllMove(s, Next(s, p, a), p)
  {
    hide Inv, AllMove, SleepMove, DrainMove, StateMove, Enqueue;
    var pc := PcOf(s, p);
    match a
    case CallPush(_, _) => CallMoves(s, p, a);
    case CallPushTask(_) => CallMoves(s, p, a);
    case Close(_) => NoneMove(s, Next(s, p, a), p);
    case ReleaseAll(_) => NoneMove(s, Next(s, p, a), p);
    case Step(pick, miss) =>
      match PushOf(pc)
      case Counted(x, g) => EnqueueMoves(s, p, x, g);
      case Enqueued(g) => NoneMove(s, Next(s, p, a), p);
      case NotPushing => DrainMoves(s, p, pick, miss); StateMoves(s, p, pick, miss); SleepMovesNone(s, p);
  }

  // ----- over whole runs --------------------------------------------------------------------------------

  /** The state after the first `k` steps of a run. */
  function After(s: State, t: seq<(Tid, Action)>, k: nat): State
    requires k <= |t|
  {
    RunAll(s, t[..k])
  }

  lemma {:induction false} RunAppends(s: State, a: seq<(Tid, Action)>, b: seq<(Tid, Action)>)
    ensures RunAll(s, a + b) == RunAll(RunAll(s, a), b)
    decreases |a|
  {
    hide Next;
    if a == [] {
      assert a + b == b;
    } else {
      assert (a + b)[1..] == a[1..] + b;
      RunAppends(Next(s, a[0].0, a[0].1), a[1..], b);
    }
  }

  lemma OneMore(s: State, t: seq<(Tid, Action)>, k: nat)
    requires k < |t|
    ensures After(s, t, k + 1) == Next(After(s, t, k), t[k].0, t[k].1)
  {
    hide Next;
    var last: seq<(Tid, Action)> := [t[k]];
    assert t[..k + 1] == t[..k] + last && last[1..] == [];
    RunAppends(s, t[..k], last);
    assert RunAll(Next(After(s, t, k), t[k].0, t[k].1), []) == Next(After(s, t, k), t[k].0, t[k].1);
  }

  lemma AfterKeepsInv(s: State, t: seq<(Tid, Action)>, k: nat)
    requires Inv(s) && k <= |t|
    ensures Inv(After(s, t, k))
  {
    RunKeepsInv(s, t[..k]);
    hide Inv, RunAll;
  }

  lemma {:induction false} KeepsItsGroup(s: State, t: seq<(Tid, Action)>, x: OpId, i: nat, k: nat)
    requires Inv(s) && i <= k <= |t| && x < |After(s, t, i).ops|
    ensures After(s, t, k).workers == After(s, t, i).workers && x < |After(s, t, k).ops|
    ensures After(s, t, k).ops[x].group == After(s, t, i).ops[x].group
    ensures After(s, t, k).ops[x].state == After(s, t, i).ops[x].state
    decreases k
  {
    hide After, Next, Inv, MayMove;
    if k > i {
      KeepsItsGroup(s, t, x, i, k - 1);
      OneMore(s, t, k - 1);
      AfterKeepsInv(s, t, k - 1);
      OperationsGoTheirWay(After(s, t, k - 1), t[k - 1].0, t[k - 1].1);
    }
  }

  lemma {:induction false} SameWorkers(s: State, t: seq<(Tid, Action)>, k: nat)
    requires Inv(s) && k <= |t|
    ensures After(s, t, k).workers == s.workers
    decreases k
  {
    hide After, Next, Inv, MayMove;
    if k == 0 {
      NoSteps(s, t);
    } else {
      SameWorkers(s, t, k - 1);
      OneMore(s, t, k - 1);
      AfterKeepsInv(s, t, k - 1);
      OperationsGoTheirWay(After(s, t, k - 1), t[k - 1].0, t[k - 1].1);
    }
  }

  lemma NoSteps(s: State, t: seq<(Tid, Action)>)
    ensures After(s, t, 0) == s
  {
  }

  /** The group and the state that a push names; a task has none. */
  predicate Names(a: Action, g: Gid, st: Option<Sid>) {
    (a.CallPush? && a.g == g && a.st == st) || (a.CallPushTask? && a.g == g && st == None)
  }

  /**
    In every run: what a call pushes for group `g` stays an operation of that group and of the state
    named for good, and whoever takes it out of a group queue is a worker of group `g`.
   */
  lemma PushedForItsGroup(groups: set<Gid>, workers: map<Tid, Gid>, t: seq<(Tid, Action)>, i: nat, k: nat,
                          g: Gid, st: Option<Sid>)
    requires i < k < |t| && Names(t[i].1, g, st) && g in After(Init(groups, workers), t, i).groups
    requires MayPush(PcOf(After(Init(groups, workers), t, i), t[i].0)) && (t[i].1.CallPushTask? ==> t[i].0 in workers)
    ensures var x, s, s' := |After(Init(groups, workers), t, i).ops|, After(Init(groups, workers), t, k),
        After(Init(groups, workers), t, k + 1);
      && x < |s.ops| && x < |s'.ops| && s.ops[x].group == g && s.ops[x].state == st
      && (s.ops[x].place.Queued? && s'.ops[x].place != s.ops[x].place ==>
            s.ops[x].place == Queued(g) && t[k].0 in workers && workers[t[k].0] == g)
  {
    hide After, Next, Inv, MayPush, Appends, Init;
    var s0 := Init(groups, workers);
    InitInv(groups, workers);
    InitWorkers(groups, workers);
    var x := |After(s0, t, i).ops|;
    SameWorkers(s0, t, i);
    SameWorkers(s0, t, k);
    OneMore(s0, t, i);
    CallsAppend(After(s0, t, i), t[i].0, t[i].1);
    AppendedLast(After(s0, t, i), After(s0, t, i + 1), t[i].0, g, st);
    KeepsItsGroup(s0, t, x, i + 1, k);
    OneMore(s0, t, k);
    AfterKeepsInv(s0, t, k);
    OperationsGoTheirWay(After(s0, t, k), t[k].0, t[k].1);
  }

  lemma InitWorkers(groups: set<Gid>, workers: map<Tid, Gid>)
    ensures Init(groups, workers).workers == workers
  {
  }

  lemma AppendedLast(m: State, m': State, p: Tid, g: Gid, state: Option<Sid>)
    requires Appends(m, m', p, g, state)
    ensures |m.ops| < |m'.ops| && m'.ops[|m.ops|].group == g && m'.ops[|m.ops|].state == state
  {
  }

  // ----- permits and flags --------------------------------------------------------------------------------

  /** The groups' semaphores do not notice. */
  ghost predicate SameSignals(s: State, s': State) {
    forall g: Gid ::
      GroupOf(s', g).permits == GroupOf(s, g).permits && GroupOf(s', g).released == GroupOf(s, g).released
  }

  lemma CallSignals(s: State, p: Tid, a: Action)
    requires a.CallPush? || a.CallPushTask? || a.Close?
    ensures SameSignals(s, Next(s, p, a))
  {
    hide GroupOf;
    assert Next(s, p, a).groups == s.groups;
    hide Next;
    SameGroups(s, Next(s, p, a));
  }

  lemma SameGroups(s: State, s': State)
    requires s'.groups == s.groups
    ensures SameSignals(s, s')
  {
  }

  lemma EnqueueSignals(s: State, p: Tid, x: OpId, g: Gid)
    requires PushOf(PcOf(s, p)) == Counted(x, g)
    ensures SameSignals(s, Enqueue(s, p, x, g))
  {
  }

  lemma TakeSignals(s: State, p: Tid, g: Gid, i: nat, outer: nat)
    requires i < |QueueOf(s, g)|
    ensures SameSignals(s, TakeQueued(s, p, g, i, outer))
  {
    hide RemoveAt;
  }

  lemma StateSignals(s: State, p: Tid, pick: nat, miss: Option<Tid>)
    ensures SameSignals(s, StateMove(s, p, pick, miss))
  {
    hide StateMove;
    StateGroups(s, p, pick, miss);
    SameGroups(s, StateMove(s, p, pick, miss));
  }

  lemma StateGroups(s: State, p: Tid, pick: nat, miss: Option<Tid>)
    ensures StateMove(s, p, pick, miss).groups == s.groups
  {
    hide RemoveAt, ContextOf, PushOf, OpInv;
  }

  lemma DrainSignals(s: State, p: Tid, pick: nat, miss: Option<Tid>)
    ensures SameSignals(s, DrainMove(s, p, pick, miss))
  {
    hide SameSignals, TakeQueued, RetireAll, MayMiss, QueueOf;
    var g := if p in s.workers then s.workers[p] else 0;
    if PcOf(s, p).Pop? && !MayMiss(s, g, miss) {
      NoMiss(s, g, miss);
      TakeSignals(s, p, g, pick % |QueueOf(s, g)|, PcOf(s, p).outer);
    } else {
      SameGroups(s, DrainMove(s, p, pick, miss));
    }
  }

  /** How a step changes the permits of group `g`: by what it releases and what it acquires. */
  ghost predicate PermitStep(s: State, s': State, p: Tid, g: Gid) {
    var pc, pc' := PcOf(s, p), PcOf(s', p);
    GroupOf(s', g).permits ==
      GroupOf(s, g).permits
      + (if PushOf(pc) == Enqueued(g) && PushOf(pc') != Enqueued(g) then 1 else 0)
      + (if GroupOf(s', g).released && !GroupOf(s, g).released then |Workers(s, g)| else 0)
      - (if pc.Acquire? && pc'.CheckTerm? && p in s.workers && s.workers[p] == g then 1 else 0)
  }

  lemma ReleasePermits(s: State, p: Tid, h: Gid, g: Gid)
    ensures PermitStep(s, Next(s, p, ReleaseAll(h)), p, g)
  {
  }

  lemma OwedPermits(s: State, p: Tid, h: Gid, pick: nat, miss: Option<Tid>, g: Gid)
    requires PushOf(PcOf(s, p)) == Enqueued(h)
    ensures PermitStep(s, Next(s, p, Step(pick, miss)), p, g)
    ensures PushOf(PcOf(Next(s, p, Step(pick, miss)), p)).NotPushing?
  {
  }

  lemma SleepPermits(s: State, p: Tid, g: Gid)
    requires !PcOf(s, p).Outside? ==> p in s.workers
    requires PushOf(PcOf(s, p)).NotPushing?
    ensures PermitStep(s, SleepMove(s, p), p, g)
  {
  }

  lemma OtherPermits(s: State, s': State, p: Tid, g: Gid)
    requires SameSignals(s, s') && !PcOf(s, p).Acquire?
    requires PushOf(PcOf(s, p)).Enqueued? ==> PushOf(PcOf(s', p)) == PushOf(PcOf(s, p))
    ensures PermitStep(s, s', p, g)
  {
  }

  lemma CallKeepsDebt(s: State, p: Tid, a: Action)
    requires (a.CallPush? || a.CallPushTask? || a.Close?) && (PushOf(PcOf(s, p)).Enqueued? || PcOf(s, p).Acquire?)
    ensures PcOf(Next(s, p, a), p) == PcOf(s, p)
  {
  }

  /**
    The semaphore of a group is released once by each push to the group that returns, and once for each
    of its workers at shutdown; it is acquired by its own workers only, once each time they wake.
   */
  lemma PermitsChange(s: State, p: Tid, a: Action, g: Gid)
    requires Inv(s)
    ensures PermitStep(s, Next(s, p, a), p, g)
  {
    hide Inv, PermitStep, SameSignals, SleepMove, DrainMove, StateMove, Enqueue, GroupOf;
    var pc := PcOf(s, p);
    if !pc.Outside? { IsWorkerHere(s, p); }
    match a
    case ReleaseAll(h) => ReleasePermits(s, p, h, g);
    case Step(pick, miss) =>
      match PushOf(pc) {
        case Counted(x, h) =>
          EnqueueSignals(s, p, x, h);
          OtherPermits(s, Next(s, p, a), p, g);
        case Enqueued(h) => OwedPermits(s, p, h, pick, miss, g);
        case NotPushing =>
          DrainSignals(s, p, pick, miss);
          StateSignals(s, p, pick, miss);
          SleepPermits(s, p, g);
          if Next(s, p, a) != SleepMove(s, p) { OtherPermits(s, Next(s, p, a), p, g); }
      }
    case _ =>
      CallSignals(s, p, a);
      if PushOf(pc).Enqueued? || pc.Acquire? { CallKeepsDebt(s, p, a); }
      CallPermits(s, p, a, g);
  }

  lemma CallPermits(s: State, p: Tid, a: Action, g: Gid)
    requires (a.CallPush? || a.CallPushTask? || a.Close?) && SameSignals(s, Next(s, p, a))
    requires PushOf(PcOf(s, p)).Enqueued? || PcOf(s, p).Acquire? ==> PcOf(Next(s, p, a), p) == PcOf(s, p)
    ensures PermitStep(s, Next(s, p, a), p, g)
  {
    hide Next;
  }

  /**
    A push that has begun goes on with each step of its thread, to its group's queue and then to the
    release it owes, and with nothing else.
   */
  lemma PushGoesOn(s: State, p: Tid, a: Action)
    requires !PushOf(PcOf(s, p)).NotPushing?
    ensures var push, push' := PushOf(PcOf(s, p)), PushOf(PcOf(Next(s, p, a), p));
      if !a.Step? then push' == push
      else if push.Enqueued? then push'.NotPushing?
      else push' == Enqueued(push.g) && QueueOf(Next(s, p, a), push.g) == QueueOf(s, push.g) + [push.x]
  {
    hide SleepMove, DrainMove, StateMove;
  }

  // ----- the parked flags -----------------------------------------------------------------------------------

  /** Woken, and not yet back at the semaphore. */
  predicate Working(pc: Pc) {
    !pc.Outside? && !pc.Park? && !pc.Acquire? && !pc.CheckTerm? && !pc.Unpark? && !pc.Exited?
  }

  /** The flag of a worker is up from before it sleeps until it has been woken, and down while it works. */
  ghost predicate FlagInv(s: State, p: Tid) {
    var pc := PcOf(s, p);
    && (pc.Acquire? || pc.CheckTerm? || pc.Unpark? || pc.Exited? ==> p in s.parked)
    && (Working(pc) ==> p !in s.parked) && (pc.Outside? ==> p !in s.parked)
  }

  lemma SleepKeepsFlag(s: State, p: Tid)
    requires FlagInv(s, p) && !Working(PcOf(s, p))
    ensures FlagInv(SleepMove(s, p), p) && SleepMove(s, p).parked - {p} == s.parked - {p}
  {
    hide GroupOf;
  }

  /** Steps of a thread that is not at the semaphore leave the flags alone and do not take it there. */
  ghost predicate KeepsWorking(s: State, s': State, p: Tid) {
    && s'.parked == s.parked
    && (Working(PcOf(s', p)) == Working(PcOf(s, p)) || PcOf(s', p).Park?)
    && (PcOf(s, p).Outside? <==> PcOf(s', p).Outside?) && (!Working(PcOf(s, p)) ==> PcOf(s', p).Outside? || s' == s)
  }

  lemma CallKeepsWorking(s: State, p: Tid, a: Action)
    requires a.CallPush? || a.CallPushTask?
    ensures PcOf(Next(s, p, a), p) == PcOf(s, p) || KeepsWorking(s, Next(s, p, a), p)
    ensures Next(s, p, a).parked == s.parked
  {
    hide CountNew, CacheNew, Evict, KeepsWorking;
    if MayPush(PcOf(s, p)) {
      PushKeepsPlace(s, p, a.g, if a.CallPush? then a.st else None);
      CacheKeepsPlace(s, p, a.g);
    }
  }

  lemma PushKeepsPlace(s: State, p: Tid, g: Gid, st: Option<Sid>)
    requires MayPush(PcOf(s, p))
    ensures KeepsWorking(s, CountNew(s, p, g, st), p) && CountNew(s, p, g, st).parked == s.parked
  {
  }

  lemma CacheKeepsPlace(s: State, p: Tid, g: Gid)
    requires MayPush(PcOf(s, p))
    ensures PcOf(CacheNew(s, p, g), p) == PcOf(s, p) && CacheNew(s, p, g).parked == s.parked
    ensures CacheOf(s, p) != [] ==> var s1 := Evict(s, p, g);
      KeepsWorking(s, CacheNew(s1, p, g), p) && CacheNew(s1, p, g).parked == s.parked
  {
  }

  lemma DrainKeepsWorking(s: State, p: Tid, pick: nat, miss: Option<Tid>)
    requires Working(PcOf(s, p))
    ensures KeepsWorking(s, DrainMove(s, p, pick, miss), p)
  {
    hide RetireAll, QueueOf, MayMiss, TakeQueued;
    var g := if p in s.workers then s.workers[p] else 0;
    if PcOf(s, p).Pop? && !MayMiss(s, g, miss) {
      NoMiss(s, g, miss);
      TakeKeepsWorking(s, p, g, pick % |QueueOf(s, g)|, PcOf(s, p).outer);
    }
  }

  lemma TakeKeepsWorking(s: State, p: Tid, g: Gid, i: nat, outer: nat)
    requires i < |QueueOf(s, g)| && Working(PcOf(s, p))
    ensures KeepsWorking(s, TakeQueued(s, p, g, i, outer), p)
  {
    hide RemoveAt;
  }

  lemma StateKeepsWorking(s: State, p: Tid, pick: nat, miss: Option<Tid>)
    requires Working(PcOf(s, p))
    ensures KeepsWorking(s, StateMove(s, p, pick, miss), p)
  {
    hide RemoveAt;
  }

  lemma PushKeepsWorking(s: State, p: Tid, pick: nat, miss: Option<Tid>)
    requires !PushOf(PcOf(s, p)).NotPushing?
    ensures KeepsWorking(s, Next(s, p, Step(pick, miss)), p)
  {
    hide SleepMove, DrainMove, StateMove, GroupOf;
  }

  lemma KeptFlag(s: State, s': State, p: Tid)
    requires FlagInv(s, p) && s'.parked == s.parked && (KeepsWorking(s, s', p) || PcOf(s', p) == PcOf(s, p))
    ensures FlagInv(s', p)
  {
  }

  lemma OtherFlag(s: State, s': State, p: Tid, q: Tid)
    requires FlagInv(s, q) && PcOf(s', q) == PcOf(s, q) && s'.parked - {p} == s.parked - {p} && q != p
    ensures FlagInv(s', q)
  {
    assert q in s'.parked <==> q in s'.parked - {p};
    assert q in s.parked <==> q in s.parked - {p};
  }

  lemma OwnFlag(s: State, p: Tid, a: Action)
    requires FlagInv(s, p)
    ensures FlagInv(Next(s, p, a), p) && Next(s, p, a).parked - {p} == s.parked - {p}
  {
    hide SleepMove, DrainMove, StateMove, CountNew, PushTask, Enqueue, FlagInv, KeepsWorking;
    var s' := Next(s, p, a);
    if a.Step? && PushOf(PcOf(s, p)).NotPushing? && !Working(PcOf(s, p)) {
      SleepKeepsFlag(s, p);
    } else if a.Step? {
      if PushOf(PcOf(s, p)).NotPushing? {
        DrainKeepsWorking(s, p, a.pick, a.miss);
        StateKeepsWorking(s, p, a.pick, a.miss);
      } else {
        PushKeepsWorking(s, p, a.pick, a.miss);
      }
      KeepsFlags(s, s', p);
      KeptFlag(s, s', p);
    } else if a.CallPush? || a.CallPushTask? {
      CallKeepsWorking(s, p, a);
      KeptFlag(s, s', p);
    } else {
      KeptFlag(s, s', p);
    }
  }

  lemma KeepsFlags(s: State, s': State, p: Tid)
    requires KeepsWorking(s, s', p)
    ensures s'.parked == s.parked
  {
  }

  lemma ReleaseWaits(s: State, p: Tid, a: Action)
    requires !a.Step?
    ensures OthersWait(s, Next(s, p, a), p)
  {
  }

  lemma NextWaits(s: State, p: Tid, a: Action)
    ensures OthersWait(s, Next(s, p, a), p)
  {
    hide Next, OneRun, OthersWait;
    if a.Step? { StepCounts(s, p, a.pick, a.miss); } else { ReleaseWaits(s, p, a); }
  }

  ghost predicate FlagsInv(s: State) { forall p: Tid :: FlagInv(s, p) }

  lemma NextKeepsFlags(s: State, p: Tid, a: Action)
    requires FlagsInv(s)
    ensures FlagsInv(Next(s, p, a))
  {
    hide Next, FlagInv;
    OwnFlag(s, p, a);
    NextWaits(s, p, a);
    forall q: Tid ensures FlagInv(Next(s, p, a), q) {
      if q != p { OtherFlag(s, Next(s, p, a), p, q); }
    }
  }

  lemma {:induction false} RunKeepsFlags(s: State, t: seq<(Tid, Action)>)
    requires FlagsInv(s)
    ensures FlagsInv(RunAll(s, t))
    decreases |t|
  {
    hide FlagsInv, Next;
    if t == [] {
    } else {
      NextKeepsFlags(s, t[0].0, t[0].1);
      RunKeepsFlags(Next(s, t[0].0, t[0].1), t[1..]);
    }
  }

  /**
    What `tu_tm_wait_completion` reads is right, in every run: a worker whose flag is up runs nothing,
    has nothing in its cache or its hands, and has subtracted all that it ran from the counter; a worker
    whose flag is down has been woken and has not gone back, or is about to raise it.
   */
  lemma ParkedMeansIdle(groups: set<Gid>, workers: map<Tid, Gid>, t: seq<(Tid, Action)>, w: Tid)
    requires w in workers
    ensures var s := RunAll(Init(groups, workers), t);
      && (w in s.parked ==> !Working(PcOf(s, w)) && CacheOf(s, w) == [] && UnretiredBy(s.ops, w) == {})
      && (w !in s.parked ==> Working(PcOf(s, w)) || PcOf(s, w).Park?)
  {
    InitInv(groups, workers);
    RunKeepsInv(Init(groups, workers), t);
    InitFlags(groups, workers);
    RunKeepsFlags(Init(groups, workers), t);
    RunKeepsWorkers(groups, workers, t);
    var s := RunAll(Init(groups, workers), t);
    IdleHasNothing(s, w);
    assert FlagInv(s, w);
    hide Inv, RunAll, Init;
  }

  lemma InitFlags(groups: set<Gid>, workers: map<Tid, Gid>)
    ensures FlagsInv(Init(groups, workers))
  {
  }

  lemma RunKeepsWorkers(groups: set<Gid>, workers: map<Tid, Gid>, t: seq<(Tid, Action)>)
    ensures RunAll(Init(groups, workers), t).workers == workers
  {
    InitInv(groups, workers);
    InitWorkers(groups, workers);
    SameWorkers(Init(groups, workers), t, |t|);
    assert t[..|t|] == t;
    hide RunAll, Init, Inv;
  }

  lemma IdleHasNothing(s: State, w: Tid)
    requires Inv(s)
    ensures !Working(PcOf(s, w)) ==> CacheOf(s, w) == [] && UnretiredBy(s.ops, w) == {}
    ensures w in s.workers ==> !PcOf(s, w).Outside?
  {
    assert ThreadInv(s, w);
    hide CountInv, BagInv, OpInv, StateInv;
  }

  // ----- the cache -----------------------------------------------------------------------------------------

  /** A worker empties its cache before it pops the group queue again, the newest operation first. */
  lemma CachePopsNewest(s: State, p: Tid, outer: nat, pick: nat, miss: Option<Tid>)
    requires PcOf(s, p) == CachePop(outer)
    ensures var s' := Next(s, p, Step(pick, miss));
      if CacheOf(s, p) == [] then PcOf(s', p) == Pop(outer)
      else PcOf(s', p).CacheRun? && CacheOf(s, p) == CacheOf(s', p) + [PcOf(s', p).x]
  {
    hide RetireAll, StateMove, SleepMove;
    var c := CacheOf(s, p);
    if c != [] { assert c == c[..|c| - 1] + [c[|c| - 1]]; }
  }

  /** After each counted operation that a worker has run, it turns to its cache. */
  lemma ThenTheCache(s: State, p: Tid, pick: nat, miss: Option<Tid>)
    requires (PcOf(s, p).Run? || PcOf(s, p).CacheRun?) && PcOf(s, p).push.NotPushing?
    ensures PcOf(Next(s, p, Step(pick, miss)), p) == CachePop(PcOf(s, p).outer + if PcOf(s, p).Run? then 1 else 0)
  {
    hide RetireAll, StateMove, SleepMove;
  }
}
