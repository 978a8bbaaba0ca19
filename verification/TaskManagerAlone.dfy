/**
  A worker of the task manager that runs alone: woken once, it runs every operation of its group and
  its cache, hands on what belongs to a state that another thread drains, and sleeps; once its group
  shuts down it exits.
 */
module TaskManagerAlone {
  import opened Common
  import opened TaskManager
  import opened TaskManagerRuns
  import opened TaskManagerCalls

  /** A step of `p` that meets nobody, in which the pop takes whichever element `pick` says. */
  function Turn(s: State, p: Tid, pick: State -> nat): State { Next(s, p, Step(pick(s), None)) }

  /** `p` takes `n` steps, nobody else any. */
  function Alone(s: State, p: Tid, pick: State -> nat, n: nat): State
    decreases n
  {
    if n == 0 then s else Alone(Turn(s, p, pick), p, pick, n - 1)
  }

  // ----- where one step leads ---------------------------------------------------------------------

  /** Not at the semaphore, and not gone. */
  predicate Busy(pc: Pc) { !pc.Outside? && !pc.Acquire? && !pc.Exited? }

  function PushRank(push: Push): nat { if push.Counted? then 2 else if push.Enqueued? then 1 else 0 }

  function Rank(pc: Pc): nat {
    match pc
    case CheckTerm => 6
    case Unpark => 5
    case StatePush(_, _, _) => 8
    case StateAdd(_, _) => 7
    case StateRun(_, _, _, _, _) => 7
    case StateSub(_, _, _) => 6
    case StatePop(_, _, _) => 5
    case Run(_, _, _) => 5
    case CacheRun(_, _, _) => 5
    case CachePop(_) => 4
    case Pop(_) => 3
    case Retire(_) => 2
    case Park => 1
    case _ => 0
  }

  function GroupQueue(s: State, p: Tid): seq<OpId> {
    if p in s.workers then QueueOf(s, s.workers[p]) else []
  }

  /** A worker that stops looking at its queue has found it empty. */
  ghost predicate Looked(s: State, p: Tid) {
    PcOf(s, p).Retire? || PcOf(s, p).Park? || PcOf(s, p).Acquire? ==> GroupQueue(s, p) == []
  }

  /** The step leads on: a push ends, an exec starts, the queue gets shorter, or the loop advances. */
  ghost predicate LeadsOn(s: State, s': State, p: Tid) {
    var pc, pc' := PcOf(s, p), PcOf(s', p);
    && s'.workers == s.workers && s'.closing == s.closing && pc' != pc
    && (PushRank(PushOf(pc')) < PushRank(PushOf(pc))
        || (PushOf(pc').NotPushing? && PushOf(pc).NotPushing?
            && (|| (Executing(pc') && !Executing(pc))
                || |GroupQueue(s', p)| < |GroupQueue(s, p)|
                || (GroupQueue(s', p) == GroupQueue(s, p) && Rank(pc') < Rank(pc)))))
  }

  /** Where the worker may come to stand. */
  ghost predicate StaysIn(s: State, s': State, p: Tid) {
    var pc, pc' := PcOf(s, p), PcOf(s', p);
    && (Busy(pc') || (pc.Park? && pc'.Acquire?) || (pc.CheckTerm? && p in s.closing && pc'.Exited?))
    && (Looked(s, p) ==> Looked(s', p)) && (!pc.Retire? && !pc.Park? ==> Looked(s', p))
    && (pc'.Acquire? ==> pc.Park?)
  }

  lemma PushLeadsOn(s: State, p: Tid, pick: nat)
    requires p in s.workers && !PcOf(s, p).Outside? && !PushOf(PcOf(s, p)).NotPushing?
    ensures var s' := Next(s, p, Step(pick, None)); LeadsOn(s, s', p) && StaysIn(s, s', p)
  {
    hide SleepMove, DrainMove, StateMove, GroupQueue;
  }

  lemma SleepLeadsOn(s: State, p: Tid)
    requires p in s.workers && (PcOf(s, p).Park? || PcOf(s, p).CheckTerm? || PcOf(s, p).Unpark?)
    ensures LeadsOn(s, SleepMove(s, p), p) && StaysIn(s, SleepMove(s, p), p)
  {
  }

  lemma AcquireWakes(s: State, p: Tid)
    requires p in s.workers && PcOf(s, p).Acquire? && GroupOf(s, s.workers[p]).permits > 0
    ensures PcOf(SleepMove(s, p), p).CheckTerm? && SleepMove(s, p).closing == s.closing
  {
  }

  lemma PopLeadsOn(s: State, p: Tid, i: nat, outer: nat)
    requires p in s.workers && PcOf(s, p) == Pop(outer) && i < |QueueOf(s, s.workers[p])|
    ensures var s' := TakeQueued(s, p, s.workers[p], i, outer); LeadsOn(s, s', p) && StaysIn(s, s', p)
  {
  }

  lemma RetireLeadsOn(s: State, p: Tid)
    requires p in s.workers && PcOf(s, p).Retire?
    ensures var s' := RetireCount(s, p, PcOf(s, p).outer); LeadsOn(s, s', p) && StaysIn(s, s', p)
  {
    hide RetireAll;
  }

  lemma CacheLeadsOn(s: State, p: Tid, outer: nat)
    requires p in s.workers && PcOf(s, p) == CachePop(outer) && CacheOf(s, p) != []
    ensures var s' := TakeCached(s, p, outer); LeadsOn(s, s', p) && StaysIn(s, s', p)
  {
  }

  lemma EndLeadsOn(s: State, p: Tid, x: OpId, place: Place, pc: Pc)
    requires p in s.workers && PushOf(PcOf(s, p)).NotPushing? && Rank(pc) < Rank(PcOf(s, p))
    requires pc.CachePop? || pc.StateSub? || pc.Pop?
    ensures var s' := EndExec(s, p, x, place, pc); LeadsOn(s, s', p) && StaysIn(s, s', p)
  {
  }

  lemma EmptyLeadsOn(s: State, p: Tid, outer: nat)
    requires p in s.workers
    ensures PcOf(s, p) == Pop(outer) && GroupQueue(s, p) == [] ==>
      LeadsOn(s, Goto(s, p, Retire(outer)), p) && StaysIn(s, Goto(s, p, Retire(outer)), p)
    ensures PcOf(s, p) == CachePop(outer) ==>
      LeadsOn(s, Goto(s, p, Pop(outer)), p) && StaysIn(s, Goto(s, p, Pop(outer)), p)
  {
  }

  lemma DrainLeadsOn(s: State, p: Tid, pick: nat)
    requires p in s.workers && PushOf(PcOf(s, p)).NotPushing?
    requires var pc := PcOf(s, p); pc.Pop? || pc.Run? || pc.CachePop? || pc.CacheRun? || pc.Retire?
    ensures var s' := DrainMove(s, p, pick, None); LeadsOn(s, s', p) && StaysIn(s, s', p)
  {
    hide LeadsOn, StaysIn, TakeQueued, TakeCached, RetireCount, EndExec, Goto;
    match PcOf(s, p) {
      case Pop(outer) =>
        EmptyLeadsOn(s, p, outer);
        var q := QueueOf(s, s.workers[p]);
        if q != [] { PopLeadsOn(s, p, pick % |q|, outer); }
      case Run(x, outer, _) => EndLeadsOn(s, p, x, Unretired(p), CachePop(outer + 1));
      case CachePop(outer) =>
        EmptyLeadsOn(s, p, outer);
        if CacheOf(s, p) != [] { CacheLeadsOn(s, p, outer); }
      case CacheRun(x, outer, _) => EndLeadsOn(s, p, x, Absorbed, CachePop(outer));
      case Retire(outer) => RetireLeadsOn(s, p);
      case _ =>
    }
  }

  /** The queue of a state is not empty while its owner pops it. */
  lemma OwnerFindsSome(s: State, p: Tid)
    requires Inv(s) && PcOf(s, p).StatePop?
    ensures StateQueueOf(s, PcOf(s, p).st) != []
  {
    assert ThreadInv(s, p);
    assert StateInv(s, PcOf(s, p).st);
    hide CountInv, BagInv, OpInv, CacheInv;
  }

  lemma TakeStateLeadsOn(s: State, p: Tid, st: Sid, outer: nat, inner: nat, i: nat)
    requires p in s.workers && PcOf(s, p) == StatePop(st, outer, inner) && i < |StateQueueOf(s, st)|
    ensures var s' := TakeState(s, p, st, outer, inner, i); LeadsOn(s, s', p) && StaysIn(s, s', p)
  {
    hide RemoveAt;
  }

  lemma CountLeadsOn(s: State, p: Tid, st: Sid, outer: nat, inner: nat)
    requires p in s.workers
    ensures PcOf(s, p) == StateAdd(st, outer) ==>
      LeadsOn(s, AddState(s, p, st, outer), p) && StaysIn(s, AddState(s, p, st, outer), p)
    ensures PcOf(s, p) == StateSub(st, outer, inner) ==>
      LeadsOn(s, SubState(s, p, st, outer, inner), p) && StaysIn(s, SubState(s, p, st, outer, inner), p)
  {
  }

  lemma PushStateLeadsOn(s: State, p: Tid, x: OpId, st: Sid, outer: nat)
    requires p in s.workers && PcOf(s, p) == StatePush(x, st, outer)
    ensures LeadsOn(s, PushState(s, p, x, st, outer), p) && StaysIn(s, PushState(s, p, x, st, outer), p)
  {
  }

  lemma StateLeadsOn(s: State, p: Tid, pick: nat)
    requires Inv(s) && p in s.workers && PushOf(PcOf(s, p)).NotPushing?
    requires var pc := PcOf(s, p); pc.StatePush? || pc.StateAdd? || pc.StatePop? || pc.StateRun? || pc.StateSub?
    ensures var s' := StateMove(s, p, pick, None); LeadsOn(s, s', p) && StaysIn(s, s', p)
  {
    hide LeadsOn, StaysIn, Inv, PushState, AddState, TakeState, SubState, EndExec, StateQueueOf;
    match PcOf(s, p) {
      case StatePush(x, st, outer) => PushStateLeadsOn(s, p, x, st, outer);
      case StateAdd(st, outer) => CountLeadsOn(s, p, st, outer, 0);
      case StatePop(st, outer, inner) =>
        OwnerFindsSome(s, p);
        TakeStateLeadsOn(s, p, st, outer, inner, pick % |StateQueueOf(s, st)|);
      case StateRun(x, st, outer, inner, _) => EndLeadsOn(s, p, x, Unretired(p), StateSub(st, outer, inner + 1));
      case StateSub(st, outer, inner) => CountLeadsOn(s, p, st, outer, inner);
      case _ =>
    }
  }

  /** No step of a worker that is not at the semaphore is in vain. */
  lemma TurnLeadsOn(s: State, p: Tid, pick: State -> nat)
    requires Inv(s) && p in s.workers && Busy(PcOf(s, p))
    ensures LeadsOn(s, Turn(s, p, pick), p) && StaysIn(s, Turn(s, p, pick), p)
  {
    hide Inv, LeadsOn, StaysIn, SleepMove, DrainMove, StateMove, Enqueue;
    var pc := PcOf(s, p);
    if !PushOf(pc).NotPushing? {
      PushLeadsOn(s, p, pick(s));
    } else if pc.Park? || pc.CheckTerm? || pc.Unpark? {
      SleepLeadsOn(s, p);
    } else if pc.StatePush? || pc.StateAdd? || pc.StatePop? || pc.StateRun? || pc.StateSub? {
      StateLeadsOn(s, p, pick(s));
    } else {
      DrainLeadsOn(s, p, pick(s));
    }
  }

  // ----- operations on their way ---------------------------------------------------------------------

  /** In the worker's group queue, its cache or its hands. */
  ghost predicate Due(s: State, p: Tid, x: OpId) {
    && x < |s.ops| && p in s.workers
    && var pl, g := s.ops[x].place, s.workers[p];
       (pl == Staged(p) && s.ops[x].group == g) || pl == Queued(g) || pl == Carried(p) || pl == Running(p)
       || pl == Unretired(p) || pl == Cached(p) || pl == CacheRunning(p)
  }

  predicate Over(s: State, x: OpId) { x < |s.ops| && (s.ops[x].place.Retired? || s.ops[x].place.Absorbed?) }

  predicate WithState(s: State, x: OpId) { x < |s.ops| && s.ops[x].place.InState? }

  ghost predicate OnItsWay(s: State, p: Tid, x: OpId) { Due(s, p, x) || Over(s, x) || WithState(s, x) }

  lemma MayMoveOn(s: State, s': State, p: Tid, x: OpId)
    requires p in s.workers && OpGroup(s, x) && AllMove(s, s', p) && OnItsWay(s, p, x)
    ensures OnItsWay(s', p, x)
  {
    var pl, pl' := s.ops[x].place, s'.ops[x].place;
    assert pl' == pl || MayMove(pl, pl', p, s.ops[x].group, s.ops[x].state, s.workers);
  }

  /** What is queued for a group is an operation of the group. */
  ghost predicate OpGroup(s: State, x: OpId) {
    x < |s.ops| && (s.ops[x].place.Queued? ==> s.ops[x].group == s.ops[x].place.g)
  }

  lemma HasGroup(s: State, x: OpId)
    requires Inv(s) && x < |s.ops|
    ensures OpGroup(s, x)
  {
    assert OpInv(s, x);
    hide CountInv, BagInv, ThreadInv, StateInv;
  }

  lemma TurnKeepsWay(s: State, p: Tid, pick: State -> nat)
    requires Inv(s) && p in s.workers
    ensures forall x: OpId :: OnItsWay(s, p, x) ==> OnItsWay(Turn(s, p, pick), p, x)
  {
    hide Inv, Next, AllMove, OpGroup;
    OperationsGoTheirWay(s, p, Step(pick(s), None));
    forall x: OpId | OnItsWay(s, p, x) ensures OnItsWay(Turn(s, p, pick), p, x) {
      WayIsOp(s, p, x);
      HasGroup(s, x);
      MayMoveOn(s, Turn(s, p, pick), p, x);
    }
  }

  lemma WayIsOp(s: State, p: Tid, x: OpId)
    requires OnItsWay(s, p, x)
    ensures x < |s.ops|
  {
  }

  /** A worker at the semaphore with an empty group queue has nothing left to do. */
  lemma NothingDue(s: State, p: Tid, x: OpId)
    requires Inv(s) && PcOf(s, p).Acquire? && GroupQueue(s, p) == []
    ensures !Due(s, p, x)
  {
    assert ThreadInv(s, p);
    if x < |s.ops| && p in s.workers {
      assert OpInv(s, x);
      QueueEmpty(s, s.workers[p], x);
      CacheEmpty(s, p, x);
      assert x in UnretiredBy(s.ops, p) <==> s.ops[x].place == Unretired(p);
    }
    hide CountInv, BagInv, StateInv;
  }

  lemma QueueEmpty(s: State, g: Gid, x: OpId)
    requires Inv(s) && QueueOf(s, g) == [] && x < |s.ops|
    ensures s.ops[x].place != Queued(g)
  {
    assert BagOf(s, Queued(g))[x] == 0;
    hide CountInv, OpInv, ThreadInv, StateInv;
  }

  lemma CacheEmpty(s: State, p: Tid, x: OpId)
    requires Inv(s) && CacheOf(s, p) == [] && x < |s.ops|
    ensures s.ops[x].place != Cached(p)
  {
    assert BagOf(s, Cached(p))[x] == 0;
    hide CountInv, OpInv, ThreadInv, StateInv;
  }

  // ----- a run alone ----------------------------------------------------------------------------------

  function Unrun(s: State): set<OpId> { set x: OpId | x < |s.ops| && s.ops[x].runs == 0 }

  lemma ExecStarts(s: State, p: Tid, pick: State -> nat)
    requires Inv(s)
    ensures var s' := Turn(s, p, pick);
      && |Unrun(s')| <= |Unrun(s)|
      && (Executing(PcOf(s', p)) && !Executing(PcOf(s, p)) ==> |Unrun(s')| < |Unrun(s)|)
  {
    var s' := Turn(s, p, pick);
    StepCounts(s, p, pick(s), None);
    NextKeepsInv(s, p, Step(pick(s), None));
    if Started(s, s', p).Some? {
      InExec(s', p);
      assert OpInv(s', PcOf(s', p).x);
      FewerUnrun(s, s', PcOf(s', p).x);
    } else {
      hide Inv, Next;
      assert Unrun(s') == Unrun(s);
    }
    hide Inv, Next;
  }

  lemma FewerUnrun(s: State, s': State, x: OpId)
    requires OneRun(s, s', Some(x)) && x < |s'.ops| && s'.ops[x].runs <= 1
    ensures |Unrun(s')| < |Unrun(s)|
  {
    assert Unrun(s') == Unrun(s) - {x} && x in Unrun(s);
  }

  /**
    A worker that is busy and left alone gets to the semaphore.  Whatever was on its way there still
    is; and unless the worker had already turned away from its queue, that queue is empty.
   */
  lemma {:induction false} LoneTurns(s: State, p: Tid, pick: State -> nat) returns (n: nat)
    requires Inv(s) && p in s.workers && Busy(PcOf(s, p))
    requires PcOf(s, p).CheckTerm? ==> p !in s.closing
    ensures var s' := Alone(s, p, pick, n);
      && Inv(s') && s'.workers == s.workers && s'.closing == s.closing && PcOf(s', p).Acquire?
      && (Looked(s, p) ==> GroupQueue(s', p) == []) && forall x: OpId :: OnItsWay(s, p, x) ==> OnItsWay(s', p, x)
    decreases |Unrun(s)|, PushRank(PushOf(PcOf(s, p))), |GroupQueue(s, p)|, Rank(PcOf(s, p))
  {
    hide Inv, Next, Turn, OnItsWay, GroupQueue, Unrun;
    var s1 := Turn(s, p, pick);
    TurnLeadsOn(s, p, pick);
    TurnKeepsInv(s, p, pick);
    TurnKeepsWay(s, p, pick);
    ExecStarts(s, p, pick);
    if PcOf(s1, p).Acquire? {
      n := 1;
      assert Alone(s1, p, pick, 0) == s1;
    } else {
      NotWoken(s, p, pick);
      var m := LoneTurns(s1, p, pick);
      n := m + 1;
    }
  }

  lemma NotWoken(s: State, p: Tid, pick: State -> nat)
    requires Busy(PcOf(s, p)) && StaysIn(s, Turn(s, p, pick), p)
    ensures !PcOf(Turn(s, p, pick), p).CheckTerm?
  {
  }

  lemma TurnKeepsInv(s: State, p: Tid, pick: State -> nat)
    requires Inv(s)
    ensures Inv(Turn(s, p, pick))
  {
    NextKeepsInv(s, p, Step(pick(s), None));
    hide Inv, Next;
  }

  // ----- one worker is enough -----------------------------------------------------------------------------

  /** In the queue of its state, which another thread drains or is about to count up. */
  ghost predicate AwaitsAnother(s: State, p: Tid, x: OpId) {
    WithState(s, x) && exists q: Tid :: q != p && Serves(PcOf(s, q), s.ops[x].place.st)
  }

  predicate Serves(pc: Pc, st: Sid) { Draining(pc, st) || IsAdder(pc, st) }

  lemma AwaitsSome(s: State, p: Tid, x: OpId)
    requires Inv(s) && PcOf(s, p).Acquire? && WithState(s, x)
    ensures AwaitsAnother(s, p, x)
  {
    var st := s.ops[x].place.st;
    assert BagOf(s, InState(st))[x] == 1;
    assert x in multiset(StateQueueOf(s, st)) && x in StateQueueOf(s, st);
    SomeServes(s, p, st);
    hide Inv;
  }

  lemma SomeServes(s: State, p: Tid, st: Sid)
    requires Inv(s) && PcOf(s, p).Acquire? && StateQueueOf(s, st) != []
    ensures exists q: Tid :: q != p && Serves(PcOf(s, q), st)
  {
    assert StateInv(s, st);
    hide CountInv, BagInv, OpInv, ThreadInv;
    var c := ContextOf(s, st);
    if c.owner.Some? {
      assert Serves(PcOf(s, c.owner.value), st);
    } else {
      assert Adders(s, st) != {};
      var q := Any(Adders(s, st));
      assert Serves(PcOf(s, q), st);
    }
  }

  /** Run once, and off the books. */
  predicate Done(s: State, x: OpId) { Over(s, x) && s.ops[x].runs == 1 }

  lemma OverIsDone(s: State, x: OpId)
    requires Inv(s) && Over(s, x)
    ensures Done(s, x)
  {
    assert OpInv(s, x);
    hide CountInv, BagInv, ThreadInv, StateInv;
  }

  /**
    One permit is enough for any number of operations: a worker that wakes before its flag is raised,
    or that is at work anywhere in its loop, comes back to the semaphore when it is left alone,
    whatever element each pop takes; then its group queue is empty, and each operation that was in it,
    in the worker's cache or in its hands has run once and is off the books, or awaits another thread
    that serves its state.
   */
  lemma LoneWorker(s: State, p: Tid, pick: State -> nat) returns (n: nat)
    requires Inv(s) && p in s.workers && Looked(s, p)
    requires Busy(PcOf(s, p)) && (PcOf(s, p).CheckTerm? ==> p !in s.closing)
    ensures var s' := Alone(s, p, pick, n);
      && Inv(s') && s'.workers == s.workers && PcOf(s', p).Acquire? && QueueOf(s', s.workers[p]) == []
      && forall x: OpId :: Due(s, p, x) ==> Done(s', x) || AwaitsAnother(s', p, x)
  {
    hide Inv, Next, Over, Done, WithState, Due, AwaitsAnother, Alone;
    n := LoneTurns(s, p, pick);
    var s' := Alone(s, p, pick, n);
    forall x: OpId | Due(s, p, x) ensures Done(s', x) || AwaitsAnother(s', p, x) {
      assert OnItsWay(s', p, x);
      NothingDue(s', p, x);
      if Over(s', x) { OverIsDone(s', x); } else { AwaitsSome(s', p, x); }
    }
  }

  // ----- shutdown -------------------------------------------------------------------------------------------

  ghost predicate Shut(s: State, g: Gid) {
    Inv(s) && WakeInv(s, g) && ShutdownInv(s, g) && GroupOf(s, g).released
  }

  /** `group_fini` up to its joins: the flags of the workers `ws`, then the permits of group `g`. */
  function Fini(p: Tid, ws: seq<Tid>, g: Gid): seq<(Tid, Action)> {
    if ws == [] then [(p, ReleaseAll(g))] else [(p, Close(ws[0]))] + Fini(p, ws[1..], g)
  }

  lemma FiniCloses(s: State, p: Tid, w: Tid)
    requires PcOf(s, p).Outside? && w in s.workers
    ensures var s' := Next(s, p, Close(w));
      w in s'.closing && s.closing <= s'.closing && PcOf(s', p) == PcOf(s, p) && s'.workers == s.workers
  {
  }

  lemma FiniReleases(s: State, p: Tid, g: Gid)
    requires PcOf(s, p).Outside? && Workers(s, g) <= s.closing
    ensures GroupOf(RunAll(s, [(p, ReleaseAll(g))]), g).released
  {
    var s' := Next(s, p, ReleaseAll(g));
    assert RunAll(s', []) == s';
  }

  /** A `group_fini` that raises the flag of each worker of its group shuts the group down. */
  lemma {:induction false} FiniShuts(s: State, p: Tid, ws: seq<Tid>, g: Gid)
    requires RunInv(s) && PcOf(s, p).Outside? && forall w :: w in ws ==> w in s.workers
    requires forall w :: w in Workers(s, g) ==> w in ws || w in s.closing
    ensures Shut(RunAll(s, Fini(p, ws, g)), g)
    decreases |ws|
  {
    hide Next, Inv, WakeInv, ShutdownInv, GroupOf;
    if ws == [] {
      FiniReleases(s, p, g);
      RunKeepsAll(s, Fini(p, ws, g));
    } else {
      var s1 := Next(s, p, Close(ws[0]));
      FiniCloses(s, p, ws[0]);
      RunKeepsAll(s, [(p, Close(ws[0]))]);
      assert RunAll(s1, []) == s1;
      assert forall w :: w in ws <==> w == ws[0] || w in ws[1..];
      FiniShuts(s1, p, ws[1..], g);
    }
  }

  lemma TurnKeepsShut(s: State, p: Tid, pick: State -> nat, g: Gid)
    requires Shut(s, g)
    ensures Shut(Turn(s, p, pick), g)
  {
    hide Next, WakeInv, ShutdownInv, GroupOf, Inv, SameReleases, Effect;
    TurnKeepsInv(s, p, pick);
    NextKeepsWakeAndShutdown(s, p, Step(pick(s), None), g);
    if Turn(s, p, pick) != s {
      HasThreads(s, p);
      StepEffect(s, p, Step(pick(s), None));
      ReleasedStays(s, Turn(s, p, pick), g);
    }
  }

  lemma HasThreads(s: State, p: Tid)
    requires Inv(s)
    ensures ThreadInv(s, p)
  {
  }

  lemma ReleasedStays(s: State, s': State, g: Gid)
    requires SameReleases(s, s')
    ensures GroupOf(s', g).released == GroupOf(s, g).released
  {
  }

  lemma {:induction false} AloneKeepsShut(s: State, p: Tid, pick: State -> nat, n: nat, g: Gid)
    requires Shut(s, g)
    ensures Shut(Alone(s, p, pick, n), g)
    decreases n
  {
    hide Shut, Turn;
    if n == 0 {
    } else {
      TurnKeepsShut(s, p, pick, g);
      AloneKeepsShut(Turn(s, p, pick), p, pick, n - 1, g);
    }
  }

  /** After `group_fini` a worker at the semaphore finds a permit, and its flag up. */
  lemma ShutWakes(s: State, p: Tid)
    requires p in s.workers && Shut(s, s.workers[p])
    ensures p in s.closing && (PcOf(s, p).Acquire? ==> GroupOf(s, s.workers[p]).permits > 0)
  {
    assert p in Workers(s, s.workers[p]);
    if PcOf(s, p).Acquire? { assert p in Unchecked(s, s.workers[p]); }
    hide Inv, WakeInv;
  }

  lemma WakesToExit(s: State, p: Tid, pick: State -> nat)
    requires p in s.workers && p in s.closing
    ensures PcOf(s, p).CheckTerm? ==> PcOf(Alone(s, p, pick, 1), p).Exited?
    ensures PcOf(s, p).Acquire? && GroupOf(s, s.workers[p]).permits > 0 ==> PcOf(Alone(s, p, pick, 2), p).Exited?
  {
    hide GroupOf, DrainMove, StateMove;
    var s1 := Turn(s, p, pick);
    assert Alone(s1, p, pick, 0) == s1 && Alone(s1, p, pick, 1) == Turn(s1, p, pick);
  }

  lemma {:induction false} AloneAdds(s: State, p: Tid, pick: State -> nat, m: nat, n: nat)
    ensures Alone(Alone(s, p, pick, m), p, pick, n) == Alone(s, p, pick, m + n)
    decreases m
  {
    hide Turn;
    if m == 0 {
    } else {
      AloneAdds(Turn(s, p, pick), p, pick, m - 1, n);
    }
  }

  /** After `group_fini` each worker of the group exits when it runs, wherever it is. */
  lemma LoneExit(s: State, p: Tid, pick: State -> nat) returns (n: nat)
    requires p in s.workers && Shut(s, s.workers[p])
    ensures PcOf(Alone(s, p, pick, n), p).Exited?
  {
    hide Inv, Turn, Looked, OnItsWay, Shut, Alone;
    ShutWakes(s, p);
    WakesToExit(s, p, pick);
    WorkerStands(s, p);
    if PcOf(s, p).Exited? {
      n := 0;
      NoTurns(s, p, pick);
    } else if PcOf(s, p).CheckTerm? {
      n := 1;
    } else if PcOf(s, p).Acquire? {
      n := 2;
    } else {
      ShutInv(s, s.workers[p]);
      var m := LoneTurns(s, p, pick);
      var s' := Alone(s, p, pick, m);
      AloneKeepsShut(s, p, pick, m, s.workers[p]);
      ShutWakes(s', p);
      WakesToExit(s', p, pick);
      AloneAdds(s, p, pick, m, 2);
      n := m + 2;
    }
  }

  lemma NoTurns(s: State, p: Tid, pick: State -> nat)
    ensures Alone(s, p, pick, 0) == s
  {
  }

  lemma ShutInv(s: State, g: Gid)
    requires Shut(s, g)
    ensures Inv(s)
  {
  }

  lemma WorkerStands(s: State, p: Tid)
    requires p in s.workers && Shut(s, s.workers[p])
    ensures !PcOf(s, p).Outside?
  {
    assert HandsInv(s, p) by { HasThreads(s, p); }
    hide Inv, WakeInv, ShutdownInv;
  }

  /** No thread can take a step. */
  ghost predicate AtRest(s: State) { forall q: Tid, pick: nat :: Next(s, q, Step(pick, None)) == s }

  /** After `group_fini` a group only comes to rest with every worker gone: `join` has nothing to wait for. */
  lemma RestMeansExited(groups: set<Gid>, workers: map<Tid, Gid>, t: seq<(Tid, Action)>, w: Tid)
    requires w in workers && GroupOf(RunAll(Init(groups, workers), t), workers[w]).released
    requires AtRest(RunAll(Init(groups, workers), t))
    ensures PcOf(RunAll(Init(groups, workers), t), w).Exited?
  {
    hide Inv, Next, WakeInv, ShutdownInv, RunAll, Init, LeadsOn, StaysIn, GroupOf;
    InitRunInv(groups, workers);
    InitWorkers(groups, workers);
    RunKeepsAll(Init(groups, workers), t);
    var s := RunAll(Init(groups, workers), t);
    assert WakeInv(s, workers[w]) && ShutdownInv(s, workers[w]);
    WorkerStands(s, w);
    ShutWakes(s, w);
    var pick: State -> nat := _ => 0;
    assert Turn(s, w, pick) == s;
    if PcOf(s, w).Acquire? {
      RestsAlone(s, w, pick, 2);
      WakesToExit(s, w, pick);
    } else if Busy(PcOf(s, w)) {
      TurnLeadsOn(s, w, pick);
      NotInVain(s, s, w);
    }
  }

  lemma NotInVain(s: State, s': State, p: Tid)
    requires LeadsOn(s, s', p)
    ensures s' != s
  {
  }

  lemma {:induction false} RestsAlone(s: State, p: Tid, pick: State -> nat, n: nat)
    requires Turn(s, p, pick) == s
    ensures Alone(s, p, pick, n) == s
    decreases n
  {
    hide Turn;
    if n == 0 {
    } else {
      RestsAlone(s, p, pick, n - 1);
    }
  }

  // ----- rest before shutdown ---------------------------------------------------------------------------------

  ghost predicate ExitInv(s: State) { forall p: Tid :: PcOf(s, p).Exited? ==> p in s.closing }

  lemma SleepExits(s: State, p: Tid)
    ensures PcOf(SleepMove(s, p), p).Exited? ==> PcOf(s, p).Exited? || p in s.closing
    ensures SleepMove(s, p).closing == s.closing
  {
    hide GroupOf;
  }

  lemma DrainExits(s: State, p: Tid, pick: nat, miss: Option<Tid>)
    requires PushOf(PcOf(s, p)).NotPushing?
    ensures PcOf(DrainMove(s, p, pick, miss), p).Exited? ==> PcOf(s, p).Exited?
    ensures DrainMove(s, p, pick, miss).closing == s.closing
  {
    hide RetireAll, RemoveAt, GroupOf;
  }

  lemma StateExits(s: State, p: Tid, pick: nat, miss: Option<Tid>)
    ensures PcOf(StateMove(s, p, pick, miss), p).Exited? ==> PcOf(s, p).Exited?
    ensures StateMove(s, p, pick, miss).closing == s.closing
  {
    hide RemoveAt, ContextOf;
  }

  lemma CallExits(s: State, p: Tid, a: Action)
    requires a.CallPush? || a.CallPushTask?
    ensures PcOf(Next(s, p, a), p).Exited? ==> PcOf(s, p).Exited?
    ensures Next(s, p, a).closing == s.closing
  {
    hide CacheOf;
  }

  lemma PushExits(s: State, p: Tid, pick: nat, miss: Option<Tid>)
    requires !PushOf(PcOf(s, p)).NotPushing?
    ensures !PcOf(Next(s, p, Step(pick, miss)), p).Exited? && Next(s, p, Step(pick, miss)).closing == s.closing
  {
    hide SleepMove, DrainMove, StateMove, GroupOf;
  }

  lemma OwnExits(s: State, p: Tid, a: Action)
    ensures PcOf(Next(s, p, a), p).Exited? ==> PcOf(s, p).Exited? || p in s.closing
    ensures s.closing <= Next(s, p, a).closing
  {
    hide SleepMove, DrainMove, StateMove, Enqueue, CountNew, PushTask, GroupOf;
    match a
    case Step(pick, miss) =>
      if !PushOf(PcOf(s, p)).NotPushing? {
        PushExits(s, p, pick, miss);
      } else {
        SleepExits(s, p);
        DrainExits(s, p, pick, miss);
        StateExits(s, p, pick, miss);
      }
    case CallPush(_, _) => CallExits(s, p, a);
    case CallPushTask(_) => CallExits(s, p, a);
    case _ =>
  }

  lemma NextKeepsExit(s: State, p: Tid, a: Action)
    requires ExitInv(s)
    ensures ExitInv(Next(s, p, a))
  {
    hide Next;
    OwnExits(s, p, a);
    NextWaits(s, p, a);
  }

  lemma {:induction false} RunKeepsExit(s: State, t: seq<(Tid, Action)>)
    requires ExitInv(s)
    ensures ExitInv(RunAll(s, t))
    decreases |t|
  {
    hide ExitInv, Next;
    if t == [] {
    } else {
      NextKeepsExit(s, t[0].0, t[0].1);
      RunKeepsExit(Next(s, t[0].0, t[0].1), t[1..]);
    }
  }

  lemma RestPushesNothing(s: State, p: Tid)
    requires AtRest(s)
    ensures PushOf(PcOf(s, p)).NotPushing?
  {
    assert Next(s, p, Step(0, None)) == s;
    hide AtRest;
    if !PushOf(PcOf(s, p)).NotPushing? { PushGoesOn(s, p, Step(0, None)); }
    hide Next;
  }

  lemma RestIsAtSemaphore(s: State, p: Tid)
    requires Inv(s) && ExitInv(s) && AtRest(s) && p in s.workers && p !in s.closing
    ensures PcOf(s, p).Acquire? && GroupOf(s, s.workers[p]).permits == 0
  {
    hide Inv, Next, GroupOf, LeadsOn, StaysIn;
    var pick: State -> nat := _ => 0;
    assert Turn(s, p, pick) == s;
    IsNotOutside(s, p);
    if Busy(PcOf(s, p)) {
      TurnLeadsOn(s, p, pick);
      NotInVain(s, s, p);
    } else if GroupOf(s, s.workers[p]).permits > 0 {
      AcquireWakes(s, p);
      StepSleeps(s, p);
    }
  }

  lemma StepSleeps(s: State, p: Tid)
    requires PcOf(s, p).Acquire?
    ensures Next(s, p, Step(0, None)) == SleepMove(s, p)
  {
  }

  lemma IsNotOutside(s: State, p: Tid)
    requires Inv(s) && p in s.workers
    ensures !PcOf(s, p).Outside?
  {
    assert HandsInv(s, p) by { HasThreads(s, p); }
    hide Inv;
  }

  lemma RestHasNoQueue(s: State, g: Gid)
    requires Inv(s) && WakeInv(s, g) && ExitInv(s) && AtRest(s) && s.closing == {} && Workers(s, g) != {}
    ensures QueueOf(s, g) == []
  {
    hide Inv, ExitInv, AtRest, GroupOf, QueueOf;
    if QueueOf(s, g) != [] {
      var w := Any(Workers(s, g));
      RestIsAtSemaphore(s, w);
      var p: Tid :| Attends(s, p, g);
      RestPushesNothing(s, p);
      RestIsAtSemaphore(s, p);
    }
  }

  /** A place of an operation that somebody still has to see to. */
  lemma RestCountsNothing(s: State, x: OpId)
    requires Inv(s) && ExitInv(s) && AtRest(s) && s.closing == {} && x < |s.ops|
    requires forall g: Gid :: QueueOf(s, g) == []
    ensures !Counting(s.ops[x].place)
  {
    assert OpInv(s, x);
    match s.ops[x].place {
      case Staged(p) => RestPushesNothing(s, p);
      case Queued(g) => QueueEmpty(s, g, x);
      case Carried(p) => RestHoldsNothing(s, p);
      case Running(p) => RestHoldsNothing(s, p);
      case Unretired(p) => RestRetires(s, p, x);
      case InState(st) =>
        assert BagOf(s, InState(st))[x] == 1;
        assert x in multiset(StateQueueOf(s, st)) && x in StateQueueOf(s, st);
        RestServesNothing(s, st);
      case _ =>
    }
    hide Inv, AtRest, ExitInv;
  }

  lemma RestHoldsNothing(s: State, p: Tid)
    requires Inv(s) && ExitInv(s) && AtRest(s) && s.closing == {}
    ensures PcOf(s, p).Outside? || PcOf(s, p).Acquire?
  {
    if !PcOf(s, p).Outside? {
      IsWorkerHere(s, p);
      RestIsAtSemaphore(s, p);
    }
    hide Inv, AtRest, ExitInv;
  }

  lemma RestRetires(s: State, p: Tid, x: OpId)
    requires Inv(s) && ExitInv(s) && AtRest(s) && s.closing == {} && x < |s.ops|
    ensures s.ops[x].place != Unretired(p)
  {
    RestHoldsNothing(s, p);
    HasThreads(s, p);
    assert x in UnretiredBy(s.ops, p) <==> s.ops[x].place == Unretired(p);
    hide Inv, AtRest, ExitInv, HandsInv, CacheInv;
  }

  lemma RestServesNothing(s: State, st: Sid)
    requires Inv(s) && ExitInv(s) && AtRest(s) && s.closing == {}
    ensures StateQueueOf(s, st) == []
  {
    assert StateInv(s, st);
    hide CountInv, BagInv, OpInv, ThreadInv, StateQueueOf, AtRest;
    var c := ContextOf(s, st);
    if c.owner.Some? { RestHoldsNothing(s, c.owner.value); }
    if Adders(s, st) != {} {
      var q := Any(Adders(s, st));
      RestHoldsNothing(s, q);
    }
    StateQueueIs(s, st);
  }

  lemma StateQueueIs(s: State, st: Sid)
    ensures StateQueueOf(s, st) == ContextOf(s, st).queue
  {
  }

  /** Queues of groups that do not exist are empty. */
  lemma NoGroupNoQueue(s: State, g: Gid)
    ensures g !in s.groups ==> QueueOf(s, g) == []
  {
  }

  /**
    The manager comes to rest only when all is done: in every run before shutdown, over groups that
    have workers, if no thread can take a step then every operation ever pushed has run once, the
    counter is zero and every worker is parked, so `tu_tm_wait_completion` returns.
   */
  lemma RestMeansCompletion(groups: set<Gid>, workers: map<Tid, Gid>, t: seq<(Tid, Action)>)
    requires forall g :: g in RunAll(Init(groups, workers), t).groups ==> g in workers.Values
    requires AtRest(RunAll(Init(groups, workers), t)) && RunAll(Init(groups, workers), t).closing == {}
    ensures var s := RunAll(Init(groups, workers), t);
      && s.counter == 0 && workers.Keys <= s.parked
      && forall x: OpId :: x < |s.ops| ==> Done(s, x)
  {
    hide Inv, Next, WakeInv, ShutdownInv, RunAll, Init, AtRest, ExitInv, QueueOf, FlagsInv, Done;
    var s := RunAll(Init(groups, workers), t);
    InitRunInv(groups, workers);
    InitWorkers(groups, workers);
    RunKeepsAll(Init(groups, workers), t);
    InitExits(groups, workers);
    RunKeepsExit(Init(groups, workers), t);
    forall g: Gid ensures QueueOf(s, g) == [] {
      NoGroupNoQueue(s, g);
      if g in s.groups {
        var w :| w in workers && workers[w] == g;
        assert w in Workers(s, g) && WakeInv(s, g);
        RestHasNoQueue(s, g);
      }
    }
    forall x: OpId | x < |s.ops| ensures !Counting(s.ops[x].place) { RestCountsNothing(s, x); }
    NothingPending(s);
    ZeroMeansQuiescent(s);
    forall x: OpId | x < |s.ops| ensures Done(s, x) { DoneNow(s, x); }
    InitFlags(groups, workers);
    RunKeepsFlags(Init(groups, workers), t);
    forall w | w in workers ensures w in s.parked {
      RestIsAtSemaphore(s, w);
      SleeperIsParked(s, w);
    }
  }

  lemma DoneNow(s: State, x: OpId)
    requires x < |s.ops| && s.ops[x].runs == 1 && (s.ops[x].place.Retired? || s.ops[x].place.Absorbed?)
    ensures Done(s, x)
  {
  }

  lemma SleeperIsParked(s: State, w: Tid)
    requires FlagsInv(s) && PcOf(s, w).Acquire?
    ensures w in s.parked
  {
    assert FlagInv(s, w);
  }

  lemma NothingPending(s: State)
    requires Inv(s) && forall x: OpId :: x < |s.ops| ==> !Counting(s.ops[x].place)
    ensures s.counter == 0
  {
    assert Pending(s.ops) == {};
    hide BagInv, OpInv, ThreadInv, StateInv;
  }

  lemma InitExits(groups: set<Gid>, workers: map<Tid, Gid>)
    ensures ExitInv(Init(groups, workers))
  {
  }
}
