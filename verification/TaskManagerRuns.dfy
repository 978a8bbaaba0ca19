/** What holds in every run of the task manager. */
module TaskManagerRuns {
  import opened Common
  import opened TaskManager
  import CacheQueues

  // ----- waiting for completion ------------------------------------------------------

  /** The counter is never negative: it is the number of counted operations not yet retired. */
  lemma CounterCountsPending(groups: set<Gid>, workers: map<Tid, Gid>, schedule: seq<(Tid, Action)>)
    ensures var s := RunAll(Init(groups, workers), schedule); s.counter == |Pending(s.ops)| >= 0
  {
    InitInv(groups, workers);
    RunKeepsInv(Init(groups, workers), schedule);
  }

  /** `tu_tm_wait_completion` returns on a zero counter: everything pushed before has run exactly once. */
  lemma WaitMeansAllRan(groups: set<Gid>, workers: map<Tid, Gid>, schedule: seq<(Tid, Action)>)
    requires RunAll(Init(groups, workers), schedule).counter == 0
    ensures var s := RunAll(Init(groups, workers), schedule);
      && (forall x: OpId | x < |s.ops| :: s.ops[x].runs == 1)
      && (forall g: Gid :: QueueOf(s, g) == [])
      && (forall st: Sid :: StateQueueOf(s, st) == [] && ContextOf(s, st).counter == 0)
      && (forall p: Tid :: CacheOf(s, p) == [] && !PcOf(s, p).Run? && !PcOf(s, p).StateRun? && !PcOf(s, p).CacheRun?)
  {
    InitInv(groups, workers);
    RunKeepsInv(Init(groups, workers), schedule);
    ZeroMeansQuiescent(RunAll(Init(groups, workers), schedule));
  }

  /** No operation ever runs twice, at any moment of any run. */
  lemma RunsAtMostOnce(groups: set<Gid>, workers: map<Tid, Gid>, schedule: seq<(Tid, Action)>, x: OpId)
    requires x < |RunAll(Init(groups, workers), schedule).ops|
    ensures RunAll(Init(groups, workers), schedule).ops[x].runs <= 1
  {
    InitInv(groups, workers);
    RunKeepsInv(Init(groups, workers), schedule);
    assert OpInv(RunAll(Init(groups, workers), schedule), x);
  }

  // ----- states ---------------------------------------------------------------------------

  /** The execs of one state exclude each other, and a state has an owner exactly while its counter is positive. */
  lemma StateExecsExclude(s: State, st: Sid, p: Tid, q: Tid)
    requires Inv(s) && Draining(PcOf(s, p), st) && Draining(PcOf(s, q), st)
    ensures p == q && ContextOf(s, st).owner == Some(p) && ContextOf(s, st).counter > 0
  {
    assert ThreadInv(s, p) && ThreadInv(s, q) && StateInv(s, st);
  }

  /** An operation in a state queue always has an owner to run it, or a thread about to become one. */
  lemma StateQueueIsAttended(s: State, st: Sid)
    requires Inv(s) && StateQueueOf(s, st) != []
    ensures ContextOf(s, st).counter > 0 || exists p: Tid :: IsAdder(PcOf(s, p), st)
  {
    assert StateInv(s, st);
    if ContextOf(s, st).counter == 0 {
      assert |Adders(s, st)| > 0;
      var p :| p in Adders(s, st);
      assert IsAdder(PcOf(s, p), st);
    }
  }

  // ----- caches -----------------------------------------------------------------------------

  /** A worker's cache is filled as `TU_CacheQueue` does, and what that evicts is counted and pushed next. */
  lemma CacheFillsAsCacheQueue(s: State, p: Tid, g: Gid)
    requires Inv(s) && MayPush(PcOf(s, p)) && p in s.workers && s.workers[p] == g && g in s.groups
    ensures |CacheOf(s, p)| <= CACHE_SIZE
    ensures
      var s' := Next(s, p, CallPushTask(g));
      var (cache, evicted) := CacheQueues.Cached(CacheOf(s, p), CACHE_SIZE, |s.ops|);
      CacheOf(s', p) == cache &&
      PushOf(PcOf(s', p)) == if evicted.Some? then Counted(evicted.value, g) else NotPushing
  {
    assert ThreadInv(s, p);
    hide Inv;
  }

  // ----- wake-ups -----------------------------------------------------------------------------

  /** Between acquiring a permit and finding the group queue empty. */
  predicate Awake(pc: Pc) {
    !pc.Outside? && !pc.Park? && !pc.Acquire? && !pc.Retire? && !pc.Exited?
  }

  /** Thread `p` will release a permit of the group, or pop its queue again. */
  ghost predicate Attends(s: State, p: Tid, g: Gid) {
    PushOf(PcOf(s, p)) == Enqueued(g) || (p in s.workers && s.workers[p] == g && Awake(PcOf(s, p)))
  }

  ghost predicate Open(s: State, g: Gid) {
    forall w: Tid | w in s.workers && s.workers[w] == g :: w !in s.closing
  }

  ghost predicate WakeInv(s: State, g: Gid) {
    QueueOf(s, g) != [] && Open(s, g) ==> GroupOf(s, g).permits > 0 || exists p: Tid :: Attends(s, p, g)
  }

  /** Past the semaphore with the flag still to be read, or gone. */
  predicate Checked(pc: Pc) { pc.CheckTerm? || pc.Exited? }

  function Unchecked(s: State, g: Gid): set<Tid> {
    set w | w in s.workers && s.workers[w] == g && !Checked(PcOf(s, w))
  }

  ghost predicate ShutdownInv(s: State, g: Gid) {
    GroupOf(s, g).released ==> Workers(s, g) <= s.closing && GroupOf(s, g).permits >= |Unchecked(s, g)|
  }

  /** What a step of `p` does to its own program counter, as far as waking and shutdown go. */
  ghost predicate PcEffect(s: State, s': State, p: Tid, miss: Option<Tid>) {
    var pc, pc' := PcOf(s, p), PcOf(s', p);
    && s'.workers == s.workers && s.closing <= s'.closing
    && (forall q: Tid | q != p :: PcOf(s', q) == PcOf(s, q))
    && (pc.Acquire? ==> pc' == pc || pc'.CheckTerm?)
    && (Awake(pc) && !Awake(pc') && p in s.workers ==>
          (pc'.Exited? && p in s'.closing) || (pc.Pop? && MayMiss(s, s.workers[p], miss)))
    && (Checked(pc) && !Checked(pc') ==> p !in s.closing)
    && (Checked(pc') && !Checked(pc) ==> pc.Acquire? && pc'.CheckTerm?)
    && (p in s.workers <==> !pc.Outside?)
  }

  /** What it does to the queue and the permits of group `g`. */
  ghost predicate GroupEffect(s: State, s': State, p: Tid, g: Gid) {
    var pc, pc' := PcOf(s, p), PcOf(s', p);
    && (QueueOf(s', g) == [] || QueueOf(s, g) != [] || PushOf(pc') == Enqueued(g))
    && GroupOf(s', g).permits >=
         GroupOf(s, g).permits - (if p in s.workers && s.workers[p] == g && pc.Acquire? && pc'.CheckTerm? then 1 else 0)
    && (PushOf(pc) == Enqueued(g) ==> PushOf(pc') == Enqueued(g) || GroupOf(s', g).permits > 0)
  }

  ghost predicate Effect(s: State, s': State, p: Tid, miss: Option<Tid>) {
    PcEffect(s, s', p, miss) && forall g: Gid :: GroupEffect(s, s', p, g)
  }

  ghost predicate SameReleases(s: State, s': State) {
    forall g: Gid :: GroupOf(s', g).released == GroupOf(s, g).released
  }

  lemma EffectKeepsWake(s: State, s': State, p: Tid, miss: Option<Tid>, g: Gid)
    requires Effect(s, s', p, miss) && WakeInv(s, g)
    ensures WakeInv(s', g)
  {
    assert GroupEffect(s, s', p, g);
    if QueueOf(s', g) != [] && Open(s', g) {
      if QueueOf(s, g) == [] {
        assert Attends(s', p, g);
      } else if q: Tid :| Attends(s, q, g) {
        if q != p {
          assert Attends(s', q, g);
        } else if PushOf(PcOf(s, p)) == Enqueued(g) {
          assert Attends(s', p, g) || GroupOf(s', g).permits > 0;
        } else if Awake(PcOf(s', p)) {
          assert Attends(s', p, g);
        } else {
          assert miss.Some? && PushOf(PcOf(s, miss.value)) == Enqueued(g);
          assert Attends(s', miss.value, g);
        }
      } else {
        assert GroupOf(s', g).permits > 0 || Attends(s', p, g);
      }
    }
  }

  lemma EffectKeepsShutdown(s: State, s': State, p: Tid, miss: Option<Tid>, g: Gid)
    requires Effect(s, s', p, miss) && SameReleases(s, s') && ShutdownInv(s, g)
    ensures ShutdownInv(s', g)
  {
    assert GroupEffect(s, s', p, g);
    var a, b := Unchecked(s, g), Unchecked(s', g);
    assert a - {p} == b - {p};
    SizesDiffer(a, b, p);
    assert Workers(s', g) == Workers(s, g);
    if GroupOf(s, g).released && p in s.workers && s.workers[p] == g {
      assert p in Workers(s, g);
    }
  }

  /** A step that leaves groups and flags alone, and owes no permit. */
  lemma LocalEffect(s: State, s': State, p: Tid, pc': Pc, miss: Option<Tid>)
    requires s'.groups == s.groups && s'.workers == s.workers && s'.closing == s.closing && s'.pcs == s.pcs[p := pc']
    requires HandsInv(s, p)
    requires var pc := PcOf(s, p);
      && (PushOf(pc).NotPushing? || PushOf(pc).Counted?) && !pc.Acquire? && Checked(pc) == Checked(pc')
      && (Awake(pc) && !Awake(pc') ==> pc.Pop? && MayMiss(s, s.workers[p], miss))
    ensures Effect(s, s', p, miss) && SameReleases(s, s')
  {
    assert PcEffect(s, s', p, miss);
    hide PcEffect;
  }

  /** A call moves its thread on inside the exec it is in, or outside the workers. */
  ghost predicate IsCall(s: State, s': State, p: Tid) {
    var pc' := PcOf(s', p);
    && s'.groups == s.groups && s'.workers == s.workers && s'.closing == s.closing && s'.pcs == s.pcs[p := pc']
    && Checked(PcOf(s, p)) == Checked(pc') && (Awake(PcOf(s, p)) ==> Awake(pc')) && !PcOf(s, p).Acquire?
  }

  lemma CallPushIsCall(s: State, p: Tid, g: Gid, st: Option<Sid>)
    requires MayPush(PcOf(s, p)) && g in s.groups
    ensures IsCall(s, Next(s, p, CallPush(g, st)), p)
  {
  }

  lemma CallPushTaskIsCall(s: State, p: Tid, g: Gid)
    requires MayPush(PcOf(s, p)) && |CacheOf(s, p)| <= CACHE_SIZE && p in s.workers && g in s.groups && HandsInv(s, p)
    ensures IsCall(s, Next(s, p, CallPushTask(g)), p)
  {
  }

  lemma CallEffect(s: State, p: Tid, a: Action)
    requires HandsInv(s, p) && |CacheOf(s, p)| <= CACHE_SIZE && (a.CallPush? || a.CallPushTask?) && MayPush(PcOf(s, p))
    ensures Next(s, p, a) == s || (Effect(s, Next(s, p, a), p, None) && SameReleases(s, Next(s, p, a)))
  {
    hide HandsInv, Effect, SameReleases, CountNew, PushTask;
    var s' := Next(s, p, a);
    if s' != s {
      if a.CallPush? {
        CallPushIsCall(s, p, a.g, a.st);
      } else {
        CallPushTaskIsCall(s, p, a.g);
      }
      LocalEffect(s, s', p, PcOf(s', p), None);
    }
  }

  lemma EnqueueEffect(s: State, p: Tid, x: OpId, g: Gid)
    requires HandsInv(s, p) && PushOf(PcOf(s, p)) == Counted(x, g)
    ensures var s' := Enqueue(s, p, x, g); Effect(s, s', p, None) && SameReleases(s, s')
  {
    var s' := Enqueue(s, p, x, g);
    forall h: Gid ensures GroupEffect(s, s', p, h) {}
  }

  lemma PermitEffect(s: State, p: Tid, g: Gid)
    requires HandsInv(s, p) && PushOf(PcOf(s, p)) == Enqueued(g)
    ensures var s' := Next(s, p, Step(0, None)); Effect(s, s', p, None) && SameReleases(s, s')
  {
    var s' := Next(s, p, Step(0, None));
    forall h: Gid ensures GroupEffect(s, s', p, h) {}
  }

  lemma SleepEffect(s: State, p: Tid)
    requires HandsInv(s, p) && PushOf(PcOf(s, p)).NotPushing? && SleepMove(s, p) != s
    ensures Effect(s, SleepMove(s, p), p, None) && SameReleases(s, SleepMove(s, p))
  {
    match PcOf(s, p)
    case Park => LocalEffect(s, SleepMove(s, p), p, Acquire, None);
    case Acquire => AcquireEffect(s, p);
    case CheckTerm => CheckTermEffect(s, p);
    case Unpark => LocalEffect(s, SleepMove(s, p), p, Pop(0), None);
  }

  lemma AcquireEffect(s: State, p: Tid)
    requires HandsInv(s, p) && PcOf(s, p).Acquire? && SleepMove(s, p) != s
    ensures Effect(s, SleepMove(s, p), p, None) && SameReleases(s, SleepMove(s, p))
  {
    var s' := SleepMove(s, p);
    forall h: Gid ensures GroupEffect(s, s', p, h) {}
  }

  lemma CheckTermEffect(s: State, p: Tid)
    requires HandsInv(s, p) && PcOf(s, p).CheckTerm?
    ensures Effect(s, SleepMove(s, p), p, None) && SameReleases(s, SleepMove(s, p))
  {
    var s' := SleepMove(s, p);
    forall h: Gid ensures GroupEffect(s, s', p, h) {}
  }

  lemma PopEffect(s: State, p: Tid, pick: nat, miss: Option<Tid>)
    requires HandsInv(s, p) && PcOf(s, p).Pop?
    ensures Effect(s, DrainMove(s, p, pick, miss), p, miss) && SameReleases(s, DrainMove(s, p, pick, miss))
  {
    hide Effect, SameReleases, HandsInv, TakeQueued;
    WorkerHere(s, p);
    if MayMiss(s, s.workers[p], miss) {
      LocalEffect(s, DrainMove(s, p, pick, miss), p, Retire(PcOf(s, p).outer), miss);
    } else {
      TakeQueuedEffect(s, p, s.workers[p], pick % |QueueOf(s, s.workers[p])|, PcOf(s, p).outer, miss);
    }
  }

  lemma RanEffect(s: State, p: Tid, pick: nat, miss: Option<Tid>)
    requires HandsInv(s, p) && PushOf(PcOf(s, p)).NotPushing? && (PcOf(s, p).Run? || PcOf(s, p).CacheRun?)
    ensures Effect(s, DrainMove(s, p, pick, miss), p, miss) && SameReleases(s, DrainMove(s, p, pick, miss))
  {
    hide Effect, SameReleases, HandsInv;
    LocalEffect(s, DrainMove(s, p, pick, miss), p, PcOf(DrainMove(s, p, pick, miss), p), miss);
  }

  lemma CachePopEffect(s: State, p: Tid, pick: nat, miss: Option<Tid>)
    requires HandsInv(s, p) && PcOf(s, p).CachePop?
    ensures Effect(s, DrainMove(s, p, pick, miss), p, miss) && SameReleases(s, DrainMove(s, p, pick, miss))
  {
    hide Effect, SameReleases, HandsInv;
    LocalEffect(s, DrainMove(s, p, pick, miss), p, PcOf(DrainMove(s, p, pick, miss), p), miss);
  }

  lemma RetireEffect(s: State, p: Tid, pick: nat, miss: Option<Tid>)
    requires HandsInv(s, p) && PcOf(s, p).Retire?
    ensures Effect(s, DrainMove(s, p, pick, miss), p, miss) && SameReleases(s, DrainMove(s, p, pick, miss))
  {
    hide Effect, SameReleases, HandsInv;
    LocalEffect(s, DrainMove(s, p, pick, miss), p, Park, miss);
  }

  lemma DrainEffect(s: State, p: Tid, pick: nat, miss: Option<Tid>)
    requires HandsInv(s, p) && PushOf(PcOf(s, p)).NotPushing?
    requires var pc := PcOf(s, p); pc.CachePop? || pc.CacheRun? || pc.Run? || pc.Pop? || pc.Retire?
    ensures Effect(s, DrainMove(s, p, pick, miss), p, miss) && SameReleases(s, DrainMove(s, p, pick, miss))
  {
    hide *;
    match PcOf(s, p)
    case Pop(_) => PopEffect(s, p, pick, miss);
    case Run(_, _, _) => RanEffect(s, p, pick, miss);
    case CachePop(_) => CachePopEffect(s, p, pick, miss);
    case CacheRun(_, _, _) => RanEffect(s, p, pick, miss);
    case Retire(_) => RetireEffect(s, p, pick, miss);
  }

  lemma WorkerHere(s: State, p: Tid)
    requires HandsInv(s, p)
    ensures p in s.workers <==> !PcOf(s, p).Outside?
  {
  }

  lemma TakeQueuedEffect(s: State, p: Tid, g: Gid, i: nat, outer: nat, miss: Option<Tid>)
    requires HandsInv(s, p) && i < |QueueOf(s, g)| && PcOf(s, p) == Pop(outer)
    ensures var s' := TakeQueued(s, p, g, i, outer); Effect(s, s', p, miss) && SameReleases(s, s')
  {
    hide RemoveAt;
    var s' := TakeQueued(s, p, g, i, outer);
    forall h: Gid ensures GroupEffect(s, s', p, h) {}
  }

  lemma PlainStateEffect(s: State, p: Tid, pick: nat, miss: Option<Tid>)
    requires HandsInv(s, p) && PushOf(PcOf(s, p)).NotPushing? && StateMove(s, p, pick, miss) != s
    requires PcOf(s, p).StatePush? || PcOf(s, p).StateRun?
    ensures Effect(s, StateMove(s, p, pick, miss), p, miss) && SameReleases(s, StateMove(s, p, pick, miss))
  {
    hide Effect, SameReleases, HandsInv;
    LocalEffect(s, StateMove(s, p, pick, miss), p, PcOf(StateMove(s, p, pick, miss), p), miss);
  }

  lemma StatePopEffect(s: State, p: Tid, pick: nat, miss: Option<Tid>)
    requires HandsInv(s, p) && StateMove(s, p, pick, miss) != s && PcOf(s, p).StatePop?
    ensures Effect(s, StateMove(s, p, pick, miss), p, miss) && SameReleases(s, StateMove(s, p, pick, miss))
  {
    hide RemoveAt, Effect, SameReleases, HandsInv;
    LocalEffect(s, StateMove(s, p, pick, miss), p, PcOf(StateMove(s, p, pick, miss), p), miss);
  }

  lemma StateEffect(s: State, p: Tid, pick: nat, miss: Option<Tid>)
    requires HandsInv(s, p) && PushOf(PcOf(s, p)).NotPushing? && StateMove(s, p, pick, miss) != s
    requires var pc := PcOf(s, p); pc.StatePush? || pc.StateAdd? || pc.StatePop? || pc.StateRun? || pc.StateSub?
    ensures Effect(s, StateMove(s, p, pick, miss), p, miss) && SameReleases(s, StateMove(s, p, pick, miss))
  {
    hide Effect, SameReleases, HandsInv, AddState, SubState, TakeState, PushState, EndExec;
    match PcOf(s, p)
    case StatePush(_, _, _) => PlainStateEffect(s, p, pick, miss);
    case StateAdd(st, outer) => AddStateEffect(s, p, st, outer, miss);
    case StatePop(_, _, _) => StatePopEffect(s, p, pick, miss);
    case StateRun(_, _, _, _, _) => PlainStateEffect(s, p, pick, miss);
    case StateSub(st, outer, inner) => SubStateEffect(s, p, st, outer, inner, miss);
  }

  lemma AddStateEffect(s: State, p: Tid, st: Sid, outer: nat, miss: Option<Tid>)
    requires HandsInv(s, p) && PcOf(s, p) == StateAdd(st, outer)
    ensures var s' := AddState(s, p, st, outer); Effect(s, s', p, miss) && SameReleases(s, s')
  {
    hide Effect, SameReleases, HandsInv;
    var s' := AddState(s, p, st, outer);
    LocalEffect(s, s', p, PcOf(s', p), miss);
  }

  lemma SubStateEffect(s: State, p: Tid, st: Sid, outer: nat, inner: nat, miss: Option<Tid>)
    requires HandsInv(s, p) && PcOf(s, p) == StateSub(st, outer, inner)
    ensures var s' := SubState(s, p, st, outer, inner); Effect(s, s', p, miss) && SameReleases(s, s')
  {
    hide Effect, SameReleases, HandsInv;
    var s' := SubState(s, p, st, outer, inner);
    LocalEffect(s, s', p, PcOf(s', p), miss);
  }

  lemma ShutdownStep(s: State, p: Tid, a: Action, g: Gid)
    requires a.Close? || a.ReleaseAll?
    requires WakeInv(s, g) && ShutdownInv(s, g)
    ensures var s' := Next(s, p, a); WakeInv(s', g) && ShutdownInv(s', g) && s'.workers == s.workers
  {
    var s' := Next(s, p, a);
    assert s'.pcs == s.pcs && s'.workers == s.workers && s.closing <= s'.closing && QueueOf(s', g) == QueueOf(s, g);
    assert s'.groups == s.groups || GroupOf(s', g) == GroupOf(s, g) ||
      (a == ReleaseAll(g) && GroupOf(s', g).permits == GroupOf(s, g).permits + |Workers(s, g)|
       && Workers(s, g) <= s'.closing);
    hide Next;
    assert forall q: Tid :: Attends(s', q, g) == Attends(s, q, g);
    assert Unchecked(s', g) == Unchecked(s, g) <= Workers(s, g) == Workers(s', g);
    SubsetSize(Unchecked(s, g), Workers(s, g));
  }

  lemma NextKeepsWakeAndShutdown(s: State, p: Tid, a: Action, g: Gid)
    requires Inv(s) && WakeInv(s, g) && ShutdownInv(s, g)
    ensures var s' := Next(s, p, a); WakeInv(s', g) && ShutdownInv(s', g) && s'.workers == s.workers
  {
    assert ThreadInv(s, p);
    var pc, s' := PcOf(s, p), Next(s, p, a);
    var miss := if a.Step? then a.miss else None;
    if s' != s {
      if a.Close? || a.ReleaseAll? {
        ShutdownStep(s, p, a, g);
      } else {
        StepEffect(s, p, a);
        assert s'.workers == s.workers;
        hide *;
        EffectKeepsWake(s, s', p, miss, g);
        EffectKeepsShutdown(s, s', p, miss, g);
      }
    }
  }

  lemma StepEffect(s: State, p: Tid, a: Action)
    requires ThreadInv(s, p) && (a.CallPush? || a.CallPushTask? || a.Step?) && Next(s, p, a) != s
    ensures Effect(s, Next(s, p, a), p, if a.Step? then a.miss else None) && SameReleases(s, Next(s, p, a))
  {
    var pc := PcOf(s, p);
    hide Effect, SameReleases, PushTask, CountNew, StateMove, DrainMove, SleepMove, Enqueue;
    match a
    case CallPush(g, st) => CallEffect(s, p, a);
    case CallPushTask(g) => CallEffect(s, p, a);
    case Step(pick, miss) =>
      match PushOf(pc)
      case Counted(x, g) => EnqueueEffect(s, p, x, g); MissIrrelevant(s, Next(s, p, a), p, miss);
      case Enqueued(g) => PermitEffect(s, p, g); MissIrrelevant(s, Next(s, p, a), p, miss);
      case NotPushing =>
        if pc.StatePush? || pc.StateAdd? || pc.StatePop? || pc.StateRun? || pc.StateSub? {
          StateEffect(s, p, pick, miss);
        }
        else if pc.CachePop? || pc.CacheRun? || pc.Run? || pc.Pop? || pc.Retire? { DrainEffect(s, p, pick, miss); }
        else { SleepEffect(s, p); MissIrrelevant(s, Next(s, p, a), p, miss); }
  }

  lemma MissIrrelevant(s: State, s': State, p: Tid, miss: Option<Tid>)
    requires Effect(s, s', p, None) && !PcOf(s, p).Pop?
    ensures Effect(s, s', p, miss)
  {
    hide GroupEffect;
  }

  ghost predicate RunInv(s: State) {
    Inv(s) && forall g: Gid :: WakeInv(s, g) && ShutdownInv(s, g)
  }

  lemma {:induction false} RunKeepsAll(s: State, schedule: seq<(Tid, Action)>)
    requires RunInv(s)
    ensures RunInv(RunAll(s, schedule)) && RunAll(s, schedule).workers == s.workers
    decreases |schedule|
  {
    if schedule == [] {
    } else {
      var (p, a) := schedule[0];
      forall g: Gid ensures WakeInv(Next(s, p, a), g) && ShutdownInv(Next(s, p, a), g) {
        NextKeepsWakeAndShutdown(s, p, a, g);
      }
      NextKeepsInv(s, p, a);
      NextKeepsWakeAndShutdown(s, p, a, 0);
      hide Inv, WakeInv, ShutdownInv, Next;
      RunKeepsAll(Next(s, p, a), schedule[1..]);
    }
  }

  lemma InitRunInv(groups: set<Gid>, workers: map<Tid, Gid>)
    ensures RunInv(Init(groups, workers))
  {
    InitInv(groups, workers);
  }

  /**
    No lost wake-up: before its group shuts down, a non-empty queue has a permit on the
    semaphore, a pusher that still owes one, or a worker that will pop the queue again.
   */
  lemma NoLostWakeUp(groups: set<Gid>, workers: map<Tid, Gid>, schedule: seq<(Tid, Action)>, g: Gid)
    requires var s := RunAll(Init(groups, workers), schedule); QueueOf(s, g) != [] && Open(s, g)
    ensures var s := RunAll(Init(groups, workers), schedule);
      GroupOf(s, g).permits > 0 || exists p: Tid :: Attends(s, p, g)
  {
    InitRunInv(groups, workers);
    RunKeepsAll(Init(groups, workers), schedule);
    assert WakeInv(RunAll(Init(groups, workers), schedule), g);
  }

  /** After `group_fini` has released its permits, no worker of the group waits in vain or resumes work. */
  lemma ShutdownReachesEveryWorker(groups: set<Gid>, workers: map<Tid, Gid>, schedule: seq<(Tid, Action)>, w: Tid)
    requires w in workers
    requires GroupOf(RunAll(Init(groups, workers), schedule), workers[w]).released
    ensures var s := RunAll(Init(groups, workers), schedule);
      && (PcOf(s, w).Acquire? ==> PcOf(SleepMove(s, w), w) == CheckTerm)
      && (PcOf(s, w).CheckTerm? ==> PcOf(SleepMove(s, w), w) == Exited)
  {
    InitRunInv(groups, workers);
    RunKeepsAll(Init(groups, workers), schedule);
    var s := RunAll(Init(groups, workers), schedule);
    assert ShutdownInv(s, workers[w]);
    assert w in Workers(s, workers[w]);
    if PcOf(s, w).Acquire? {
      assert w in Unchecked(s, workers[w]);
    }
  }
}
