/**
  What the calls of the thread pool promise from their start to their return: a wait returns only
  when its jobs are done, a launch hands over each of its jobs and a permit for each, jobs are taken
  in the order they were handed over, and shutdown stops every worker.
 */
module ThreadPoolCalls {
  import opened Common
  import opened ThreadPool

  /** The state after the first `k` steps of a run. */
  function After(s: State, t: seq<(Tid, Action)>, k: nat): State
    requires k <= |t|
  {
    Run(s, t[..k])
  }

  lemma OneMore(s: State, t: seq<(Tid, Action)>, k: nat)
    requires k < |t|
    ensures After(s, t, k + 1) == Next(After(s, t, k), t[k].0, t[k].1)
  {
    hide Next;
    var last: seq<(Tid, Action)> := [t[k]];
    assert t[..k + 1] == t[..k] + last && last[1..] == [];
    RunAppends(s, t[..k], last);
    assert Run(Next(After(s, t, k), t[k].0, t[k].1), []) == Next(After(s, t, k), t[k].0, t[k].1);
  }

  lemma AfterKeepsInv(s: State, t: seq<(Tid, Action)>, k: nat)
    requires Inv(s) && k <= |t|
    ensures Inv(After(s, t, k))
  {
    RunKeepsInv(s, t[..k]);
    hide Inv, Run;
  }

  lemma WorkerMovesOnly(s: State, p: Tid)
    ensures OthersStay(s, WorkerStep(s, p), p)
  {
  }

  lemma CallerMovesOnly(s: State, p: Tid)
    ensures OthersStay(s, CallerStep(s, p), p)
  {
  }

  lemma MovesOnly(s: State, p: Tid, a: Action)
    ensures OthersStay(s, Next(s, p, a), p)
  {
    hide WorkerStep, CallerStep;
    WorkerMovesOnly(s, p);
    CallerMovesOnly(s, p);
  }

  // ----- a wait --------------------------------------------------------------------------------

  /** In `tu_tp_op_wait` on `h`, before the count was found to be zero. */
  predicate Waits(pc: Pc, h: nat) { pc == WaitLock(h) || pc == WaitCheck(h) }

  lemma WaitLeaves(s: State, p: Tid, h: nat, a: Action)
    requires Waits(PcOf(s, p), h) && !Waits(PcOf(Next(s, p, a), p), h)
    ensures PcOf(s, p) == WaitCheck(h) && a.Step? && PcOf(Next(s, p, Step), p) == WaitDone(h)
  {
  }

  /** Whoever moves: a wait ends only where its jobs are done and no worker is left with the handle. */
  lemma WaitEndsFinished(s: State, p: Tid, h: nat, q: Tid, a: Action)
    requires Inv(s) && Waits(PcOf(s, p), h) && !Waits(PcOf(Next(s, q, a), p), h)
    ensures Finished(s, h) && PcOf(s, p) == WaitCheck(h) && PcOf(Next(s, q, a), p) == WaitDone(h)
  {
    hide Inv, Next, Finished;
    MovesOnly(s, q, a);
    WaitLeaves(s, p, h, a);
    CheckMeansFinished(s, p, h);
  }

  lemma WaitStarts(s: State, p: Tid, h: nat)
    requires PcOf(s, p).Idle? && h in s.handles
    ensures Waits(PcOf(Next(s, p, Wait(h)), p), h)
  {
  }

  /** Since the call at step `i`, either the wait goes on, or its jobs were done at some moment. */
  lemma {:induction false} WaitsOrFinished(s: State, t: seq<(Tid, Action)>, p: Tid, h: nat, i: nat, k: nat)
    requires Inv(s) && i < k <= |t| && t[i] == (p, Wait(h))
    requires PcOf(After(s, t, i), p).Idle? && h in After(s, t, i).handles
    ensures Waits(PcOf(After(s, t, k), p), h) || exists j: nat :: i < j < k && Finished(After(s, t, j), h)
    decreases k
  {
    hide After, Next, Inv, Waits, Finished;
    OneMore(s, t, k - 1);
    if k - 1 == i {
      WaitStarts(After(s, t, i), p, h);
    } else {
      WaitsOrFinished(s, t, p, h, i, k - 1);
      AfterKeepsInv(s, t, k - 1);
      var before := After(s, t, k - 1);
      if Waits(PcOf(before, p), h) && !Waits(PcOf(After(s, t, k), p), h) {
        WaitEndsFinished(before, p, h, t[k - 1].0, t[k - 1].1);
      }
    }
  }

  /**
    Over whole calls, in every run: between the start of `tu_tp_op_wait` and its return there is a
    moment at which every job of the handle has run, once, and no worker is left with the handle.
   */
  lemma WaitReturnsFinished(workers: set<Tid>, handles: set<nat>, t: seq<(Tid, Action)>, p: Tid, h: nat, i: nat, k: nat)
    requires i < k <= |t| && t[i] == (p, Wait(h)) && h in handles
    requires PcOf(After(Init(workers, handles), t, i), p).Idle? && PcOf(After(Init(workers, handles), t, k), p).Idle?
    ensures exists j: nat :: i < j < k && Finished(After(Init(workers, handles), t, j), h)
  {
    hide Finished, Inv, Next, Run;
    InitInv(workers, handles);
    RunKeepsHandles(Init(workers, handles), t[..i]);
    WaitsOrFinished(Init(workers, handles), t, p, h, i, k);
  }

  // ----- a launch --------------------------------------------------------------------------------

  /** In `tu_tp_lauch` or `tu_tp_exec` with `n` jobs. */
  predicate Submits(pc: Pc, n: nat) { (pc.Pushing? || pc.Releasing?) && pc.n == n }

  /** Job `x` belongs to handle `h` and is with its submitter `p` or has been handed over. */
  ghost predicate Submitted(s: State, p: Tid, h: nat, x: nat) {
    x < |s.jobs| && s.jobs[x].handle == h && (s.jobs[x].at.Submitting? ==> s.jobs[x].at == Submitting(p))
  }

  /** The jobs still to hand over are the last before `end`, in ascending order. */
  ghost predicate Ascends(todo: seq<nat>, end: nat) {
    |todo| <= end && forall i :: 0 <= i < |todo| ==> todo[i] == end - |todo| + i
  }

  ghost predicate InTurn(pc: Pc, end: nat) { pc.Pushing? ==> Ascends(pc.todo, end) }

  lemma TurnsGoOn(s: State, p: Tid, a: Action, end: nat)
    requires !PcOf(s, p).Idle? && InTurn(PcOf(s, p), end)
    ensures InTurn(PcOf(Next(s, p, a), p), end)
  {
  }

  lemma SubmitStarts(s: State, p: Tid, h: nat, n: nat)
    requires PcOf(s, p).Idle? && MaySubmit(s, h)
    ensures var s' := Next(s, p, Submit(h, n));
      && |s'.jobs| == |s.jobs| + n && Submits(PcOf(s', p), n) && InTurn(PcOf(s', p), |s.jobs| + n)
      && forall x: nat :: |s.jobs| <= x < |s.jobs| + n ==> Submitted(s', p, h, x)
  {
  }

  ghost predicate JobsGoOn(s: State, s': State) {
    && |s.jobs| <= |s'.jobs|
    && forall x: nat :: x < |s.jobs| ==>
         && s'.jobs[x].handle == s.jobs[x].handle
         && (s'.jobs[x].at.Submitting? ==> s'.jobs[x].at == s.jobs[x].at)
         && (s.jobs[x].at.Over? ==> s'.jobs[x] == s.jobs[x])
  }

  lemma CallerJobs(s: State, p: Tid)
    requires Inv(s)
    ensures JobsGoOn(s, CallerStep(s, p))
  {
    assert ThreadInv(s, p);
    assert PcOf(s, p).Pushing? && PcOf(s, p).todo != [] ==> PcOf(s, p).todo[0] in PcOf(s, p).todo;
    hide JobInv, HandleInv, LockInv, QueueInv;
  }

  lemma WorkerJobs(s: State, p: Tid)
    requires Inv(s)
    ensures JobsGoOn(s, WorkerStep(s, p))
  {
    assert ThreadInv(s, p);
    if s.queue != [] {
      assert s.queue[0] in s.queue;
      assert JobInv(s, s.queue[0]);
    }
    hide HandleInv, LockInv;
  }

  lemma NextJobs(s: State, p: Tid, a: Action)
    requires Inv(s)
    ensures JobsGoOn(s, Next(s, p, a))
  {
    hide WorkerStep, CallerStep, Inv;
    WorkerJobs(s, p);
    CallerJobs(s, p);
  }

  lemma SubmitGoesOn(s: State, p: Tid, n: nat, a: Action)
    requires Submits(PcOf(s, p), n)
    ensures var s' := Next(s, p, a);
      Submits(PcOf(s', p), n) || (PcOf(s', p).Idle? && s'.permits == s.permits + n)
  {
  }

  /** What the launch started at step `i` has come to before step `k`, the submitter not having returned. */
  lemma {:induction false} Launching(s: State, t: seq<(Tid, Action)>, p: Tid, h: nat, n: nat, i: nat, k: nat)
    requires Inv(s) && i < k <= |t| && t[i] == (p, Submit(h, n))
    requires PcOf(After(s, t, i), p).Idle? && MaySubmit(After(s, t, i), h)
    requires forall j: nat :: i < j < k ==> !PcOf(After(s, t, j), p).Idle?
    ensures var from, s', before := |After(s, t, i).jobs|, After(s, t, k), After(s, t, k - 1);
      && (Submits(PcOf(s', p), n) || (PcOf(s', p).Idle? && s'.permits == before.permits + n))
      && InTurn(PcOf(s', p), from + n)
      && forall x: nat :: from <= x < from + n ==> Submitted(s', p, h, x)
    decreases k
  {
    hide After, Next, Inv, Submits, Submitted, InTurn;
    OneMore(s, t, k - 1);
    AfterKeepsInv(s, t, k - 1);
    var before := After(s, t, k - 1);
    if k - 1 == i {
      SubmitStarts(before, p, h, n);
    } else {
      Launching(s, t, p, h, n, i, k - 1);
      MovesOnly(before, t[k - 1].0, t[k - 1].1);
      StaysSubmitted(before, t[k - 1].0, t[k - 1].1, p, h, |After(s, t, i).jobs|, n);
      if t[k - 1].0 == p {
        SubmitGoesOn(before, p, n, t[k - 1].1);
        TurnsGoOn(before, p, t[k - 1].1, |After(s, t, i).jobs| + n);
      }
    }
  }

  lemma StaysSubmitted(s: State, q: Tid, a: Action, p: Tid, h: nat, from: nat, n: nat)
    requires Inv(s) && forall x: nat :: from <= x < from + n ==> Submitted(s, p, h, x)
    ensures forall x: nat :: from <= x < from + n ==> Submitted(Next(s, q, a), p, h, x)
  {
    hide Next, Inv;
    NextJobs(s, q, a);
    forall x: nat | from <= x < from + n ensures Submitted(Next(s, q, a), p, h, x) {
      assert Submitted(s, p, h, x);
    }
  }

  /**
    A launch of `n` jobs that returns has appended `n` jobs of its handle, all of them handed over to
    the queue, and released `n` permits in returning.
   */
  lemma LaunchDelivers(workers: set<Tid>, handles: set<nat>, t: seq<(Tid, Action)>, p: Tid, h: nat, n: nat,
                       i: nat, k: nat)
    requires i < k <= |t| && t[i] == (p, Submit(h, n))
    requires var s := After(Init(workers, handles), t, i); PcOf(s, p).Idle? && MaySubmit(s, h)
    requires forall j: nat :: i < j < k ==> !PcOf(After(Init(workers, handles), t, j), p).Idle?
    requires PcOf(After(Init(workers, handles), t, k), p).Idle?
    ensures var from, s' := |After(Init(workers, handles), t, i).jobs|, After(Init(workers, handles), t, k);
      && s'.permits == After(Init(workers, handles), t, k - 1).permits + n
      && forall x: nat :: from <= x < from + n ==> HandedOver(s', h, x)
  {
    hide Next, Run, After, Inv;
    InitInv(workers, handles);
    AfterKeepsInv(Init(workers, handles), t, k);
    Launching(Init(workers, handles), t, p, h, n, i, k);
    AllHandedOver(After(Init(workers, handles), t, k), p, h, |After(Init(workers, handles), t, i).jobs|, n);
  }

  /** A launch hands its jobs over in the order in which they were given. */
  lemma LaunchInOrder(s: State, t: seq<(Tid, Action)>, p: Tid, h: nat, n: nat, i: nat, k: nat, x: nat, y: nat)
    requires Inv(s) && i < k <= |t| && t[i] == (p, Submit(h, n))
    requires PcOf(After(s, t, i), p).Idle? && MaySubmit(After(s, t, i), h)
    requires forall j: nat :: i < j < k ==> !PcOf(After(s, t, j), p).Idle?
    requires |After(s, t, i).jobs| <= x < y < |After(s, t, i).jobs| + n
    ensures y < |After(s, t, k).jobs|
    ensures After(s, t, k).jobs[x].at.Submitting? ==> After(s, t, k).jobs[y].at.Submitting?
  {
    hide Next, Run, After, Inv, Submits;
    AfterKeepsInv(s, t, k);
    Launching(s, t, p, h, n, i, k);
    var s' := After(s, t, k);
    assert Submitted(s', p, h, x) && Submitted(s', p, h, y);
    if s'.jobs[x].at.Submitting? {
      StillToHand(s', p, x, y, |After(s, t, i).jobs| + n);
    }
  }

  lemma StillToHand(s: State, p: Tid, x: nat, y: nat, end: nat)
    requires Inv(s) && InTurn(PcOf(s, p), end) && x < y < end && y < |s.jobs| && s.jobs[x].at == Submitting(p)
    ensures s.jobs[y].at.Submitting?
  {
    assert JobInv(s, x) && ThreadInv(s, p);
    var todo := PcOf(s, p).todo;
    assert todo[y - (end - |todo|)] == y && y in todo;
    hide HandleInv, LockInv, QueueInv;
  }

  /** Job `x` of handle `h` is queued, with a worker, or over. */
  ghost predicate HandedOver(s: State, h: nat, x: nat) {
    x < |s.jobs| && s.jobs[x].handle == h && !s.jobs[x].at.Submitting?
  }

  lemma AllHandedOver(s: State, p: Tid, h: nat, from: nat, n: nat)
    requires Inv(s) && PcOf(s, p).Idle? && forall x: nat :: from <= x < from + n ==> Submitted(s, p, h, x)
    ensures forall x: nat :: from <= x < from + n ==> HandedOver(s, h, x)
  {
    forall x: nat | from <= x < from + n ensures HandedOver(s, h, x) {
      assert Submitted(s, p, h, x) && JobInv(s, x);
    }
  }

  // ----- the queue and the permits -----------------------------------------------------------------

  /** The job that a step hands over to the queue: the next of the launch. */
  function Handed(s: State, p: Tid, a: Action): seq<nat> {
    var pc := PcOf(s, p);
    if a.Step? && pc.Pushing? && pc.todo != [] then [pc.todo[0]] else []
  }

  /** The job that a step makes a worker's own. */
  function Fetched(s: State, s': State, p: Tid): seq<nat> {
    if PcOf(s, p).Pop? && PcOf(s', p).Exec? then [PcOf(s', p).j] else []
  }

  lemma StepIsFifo(s: State, p: Tid, a: Action)
    ensures var s' := Next(s, p, a); Fetched(s, s', p) + s'.queue == s.queue + Handed(s, p, a)
  {
    if PcOf(s, p).Pop? && s.queue != [] {
      assert s.queue == [s.queue[0]] + s.queue[1..];
    }
  }

  function AllHanded(s: State, t: seq<(Tid, Action)>): seq<nat>
    decreases |t|
  {
    if t == [] then [] else Handed(s, t[0].0, t[0].1) + AllHanded(Next(s, t[0].0, t[0].1), t[1..])
  }

  function AllFetched(s: State, t: seq<(Tid, Action)>): seq<nat>
    decreases |t|
  {
    if t == [] then [] else
      var s' := Next(s, t[0].0, t[0].1);
      Fetched(s, s', t[0].0) + AllFetched(s', t[1..])
  }

  /** In every run the workers take the jobs in the order in which they were handed over. */
  lemma {:induction false} JobsAreFifo(s: State, t: seq<(Tid, Action)>)
    ensures AllFetched(s, t) + Run(s, t).queue == s.queue + AllHanded(s, t)
    decreases |t|
  {
    hide Next, Handed, Fetched;
    if t == [] {
    } else {
      var s' := Next(s, t[0].0, t[0].1);
      StepIsFifo(s, t[0].0, t[0].1);
      JobsAreFifo(s', t[1..]);
      calc {
        AllFetched(s, t) + Run(s, t).queue;
        Fetched(s, s', t[0].0) + (AllFetched(s', t[1..]) + Run(s', t[1..]).queue);
        (Fetched(s, s', t[0].0) + s'.queue) + AllHanded(s', t[1..]);
        s.queue + AllHanded(s, t);
      }
    }
  }

  /**
    A permit is taken by each worker that wakes; a launch that returns gives one for each of its
    jobs, and the shutdown one for each worker; nothing else changes their number.
   */
  lemma PermitsChange(s: State, p: Tid, a: Action)
    ensures var s' := Next(s, p, a); var pc, pc' := PcOf(s, p), PcOf(s', p);
      s'.permits == s.permits - (if pc.Asleep? && pc'.Awake? then 1 else 0)
        + (if (pc.Pushing? || pc.Releasing?) && pc'.Idle? then pc.n
           else if pc.Closing? && pc'.Idle? then |s.workers| else 0)
    ensures PcOf(s, p).Asleep? && PcOf(Next(s, p, a), p) != PcOf(s, p) ==> PcOf(Next(s, p, a), p).Awake?
  {
  }

  /** The waiters are notified exactly when a worker finds the count at zero, and before it frees the mutex. */
  lemma LastNotifies(s: State, p: Tid, h: nat)
    requires Inv(s) && PcOf(s, p) == Test(h)
    ensures var s' := Next(s, p, Step);
      && PcOf(s', p) == (if s.handles[h].count == 0 then Notify(h) else Unlock(h))
      && s'.handles[h].lock == Some(p)
  {
    assert ThreadInv(s, p);
    assert Holds(PcOf(s, p), h);
    hide JobInv, HandleInv, QueueInv;
  }

  // ----- calls and workers that run alone -----------------------------------------------------------

  /** `p` takes `n` steps, nobody else any. */
  function Alone(s: State, p: Tid, n: nat): State
    decreases n
  {
    if n == 0 then s else Alone(Next(s, p, Step), p, n - 1)
  }

  /** No other thread holds a mutex. */
  ghost predicate Unhindered(s: State, p: Tid) {
    forall h :: h in s.handles ==> s.handles[h].lock == None || s.handles[h].lock == Some(p)
  }

  lemma StaysUnhindered(s: State, p: Tid)
    requires Unhindered(s, p)
    ensures Unhindered(Next(s, p, Step), p)
  {
  }

  /** A lone waiter returns: its jobs being done, in at most three steps, with the mutex free. */
  lemma LoneWait(s: State, p: Tid, h: nat)
    requires Inv(s) && h in s.handles && s.handles[h].count == 0 && Unhindered(s, p)
    requires Waits(PcOf(s, p), h) || PcOf(s, p) == WaitDone(h)
    ensures var n := if PcOf(s, p) == WaitLock(h) then 3 else if PcOf(s, p) == WaitCheck(h) then 2 else 1;
      && PcOf(Alone(s, p, n), p).Idle? && h in Alone(s, p, n).handles && Alone(s, p, n).handles[h].lock == None
      && Alone(s, p, n).handles[h].count == 0
  {
    var s1 := Next(s, p, Step);
    var s2 := Next(s1, p, Step);
    if PcOf(s, p) == WaitLock(h) {
      assert s.handles[h].lock == None by {
        assert !Holds(PcOf(s, p), h);
      }
      assert PcOf(s1, p) == WaitCheck(h) && PcOf(s2, p) == WaitDone(h);
      assert Alone(s, p, 3) == Next(s2, p, Step);
    } else if PcOf(s, p) == WaitCheck(h) {
      assert PcOf(s1, p) == WaitDone(h) && Alone(s, p, 2) == s2;
    } else {
      assert Alone(s, p, 1) == s1;
    }
    hide JobInv, ThreadInv, HandleInv, QueueInv;
  }

  /** Where a worker gets with one step, if it is not hindered. */
  ghost predicate Turn(s: State, s': State, p: Tid) {
    var pc, pc' := PcOf(s, p), PcOf(s', p);
    match pc
    case Awake => s'.queue == s.queue && pc' == if p in s.stopping then Stopped else Pop
    case Pop =>
      if s.queue == [] then s'.queue == [] && pc' == Asleep
      else s'.queue == s.queue[1..] && pc'.Exec? && pc'.j == s.queue[0]
    case Exec(j, h) => s'.queue == s.queue && pc' == Lock(j, h)
    case Lock(j, h) => s'.queue == s.queue && pc' == Dec(j, h)
    case Dec(j, h) => s'.queue == s.queue && pc' == Test(h) && j < |s'.jobs| && s'.jobs[j].at == Over
    case Test(h) => s'.queue == s.queue && (pc' == Notify(h) || pc' == Unlock(h))
    case Notify(h) => s'.queue == s.queue && pc' == Unlock(h)
    case Unlock(h) => s'.queue == s.queue && pc' == Pop
    case _ => true
  }

  lemma WorkerTurns(s: State, p: Tid)
    requires Inv(s) && Unhindered(s, p) && Working(PcOf(s, p))
    ensures var s' := Next(s, p, Step); Turn(s, s', p) && s'.permits == s.permits && s'.stopping == s.stopping
  {
    assert ThreadInv(s, p);
    if PcOf(s, p).Lock? {
      assert JobInv(s, PcOf(s, p).j);
      assert !Holds(PcOf(s, p), PcOf(s, p).h);
    }
    if PcOf(s, p).Dec? {
      assert JobInv(s, PcOf(s, p).j);
    }
    hide JobInv, HandleInv, QueueInv;
  }

  function Rank(pc: Pc): nat {
    match pc
    case Awake => 7
    case Exec(_, _) => 6
    case Lock(_, _) => 5
    case Dec(_, _) => 4
    case Test(_) => 3
    case Notify(_) => 2
    case Unlock(_) => 1
    case _ => 0
  }

  /** Awake and not done with the queue. */
  predicate Working(pc: Pc) { IsWorker(pc) && !pc.Asleep? && !pc.Stopped? }

  /** The jobs that the worker has or will find in the queue. */
  predicate Ahead(s: State, p: Tid, j: nat) { j in s.queue || j in Mine(PcOf(s, p)) }

  ghost predicate IsDone(s: State, j: nat) { j < |s.jobs| && s.jobs[j].at == Over && s.jobs[j].runs == 1 }

  lemma TurnGoesOn(s: State, s': State, p: Tid, j: nat)
    requires Turn(s, s', p) && Working(PcOf(s, p)) && Ahead(s, p, j)
    ensures Ahead(s', p, j) || (PcOf(s, p).Dec? && j < |s'.jobs| && s'.jobs[j].at == Over)
  {
    if s.queue != [] {
      assert s.queue == [s.queue[0]] + s.queue[1..];
    }
  }

  lemma OverIsDone(s: State, j: nat)
    requires Inv(s) && j < |s.jobs| && s.jobs[j].at == Over
    ensures IsDone(s, j)
  {
    assert JobInv(s, j);
    hide ThreadInv, HandleInv, LockInv, QueueInv;
  }

  /**
    A worker that is awake runs alone every job of the queue, and then sleeps; so one worker that
    wakes is enough for any number of jobs.
   */
  lemma {:induction false} LoneWorker(s: State, p: Tid) returns (n: nat)
    requires Inv(s) && Unhindered(s, p) && Working(PcOf(s, p)) && (PcOf(s, p).Awake? ==> p !in s.stopping)
    ensures var s' := Alone(s, p, n);
      && Inv(s') && Unhindered(s', p) && PcOf(s', p).Asleep? && s'.queue == [] && s'.permits == s.permits
      && s'.stopping == s.stopping
      && (forall j :: Ahead(s, p, j) ==> IsDone(s', j)) && forall j :: IsDone(s, j) ==> IsDone(s', j)
    decreases |s.queue|, Rank(PcOf(s, p))
  {
    hide Inv, Next, Unhindered, IsDone, Ahead;
    var s1 := Next(s, p, Step);
    NextKeepsInv(s, p, Step);
    StaysUnhindered(s, p);
    WorkerTurns(s, p);
    StaysDone(s, p);
    if PcOf(s1, p).Asleep? {
      n := 1;
      assert Alone(s1, p, 0) == s1;
    } else {
      var m := LoneWorker(s1, p);
      n := m + 1;
    }
    forall j | Ahead(s, p, j) ensures IsDone(Alone(s, p, n), j) {
      TurnGoesOn(s, s1, p, j);
      if !Ahead(s1, p, j) { OverIsDone(s1, j); }
      NothingAhead(s1, p, j);
    }
  }

  lemma NothingAhead(s: State, p: Tid, j: nat)
    ensures PcOf(s, p).Asleep? && s.queue == [] ==> !Ahead(s, p, j)
  {
  }

  lemma StaysDone(s: State, p: Tid)
    requires Inv(s)
    ensures forall j :: IsDone(s, j) ==> IsDone(Next(s, p, Step), j)
  {
    NextJobs(s, p, Step);
    hide Inv, Next;
  }

  // ----- shutdown ----------------------------------------------------------------------------------------

  /** The workers that have not yet taken a permit to wake and stop on. */
  function Unstopped(s: State): set<Tid> { set w | w in s.workers && !PcOf(s, w).Awake? && !PcOf(s, w).Stopped? }

  /** `tu_tp_fini` has raised all flags and released a permit for every worker still to come. */
  ghost predicate ShutDown(s: State) { s.workers <= s.stopping && s.permits >= |Unstopped(s)| }

  /** Program counters of workers are those of workers, once and for all. */
  ghost predicate RolesInv(s: State) {
    forall p: Tid ::
      && (IsWorker(PcOf(s, p)) <==> p in s.workers)
      && (PcOf(s, p).Closing? ==> s.workers - PcOf(s, p).left <= s.stopping)
  }

  lemma CallerRoles(s: State, p: Tid)
    requires RolesInv(s) && p !in s.workers
    ensures RolesInv(CallerStep(s, p))
  {
  }

  lemma WorkerRoles(s: State, p: Tid)
    requires RolesInv(s) && p in s.workers
    ensures RolesInv(WorkerStep(s, p))
  {
  }

  lemma NextRoles(s: State, p: Tid, a: Action)
    requires RolesInv(s)
    ensures RolesInv(Next(s, p, a))
  {
    hide CallerStep, WorkerStep;
    if a.Step? {
      if p in s.workers { WorkerRoles(s, p); } else { CallerRoles(s, p); }
    }
  }

  /** The step in which `tu_tp_fini` ends. */
  lemma FiniShutsDown(s: State, p: Tid)
    requires RolesInv(s) && PcOf(s, p).Closing? && PcOf(Next(s, p, Step), p).Idle?
    ensures ShutDown(Next(s, p, Step))
  {
    var s' := Next(s, p, Step);
    assert PcOf(s, p).left == {} && s'.workers == s.workers && s'.stopping == s.stopping;
    SubsetSize(Unstopped(s'), s.workers);
  }

  lemma StaysShutDown(s: State, p: Tid, a: Action)
    requires RolesInv(s) && ShutDown(s)
    ensures ShutDown(Next(s, p, a))
  {
    var s' := Next(s, p, a);
    PermitsChange(s, p, a);
    MovesOnly(s, p, a);
    UnstoppedStep(s, p, a);
    hide Next, Unstopped;
  }

  lemma UnstoppedStep(s: State, p: Tid, a: Action)
    requires RolesInv(s) && s.workers <= s.stopping
    ensures var s' := Next(s, p, a);
      && s'.workers == s.workers && s.stopping <= s'.stopping
      && |Unstopped(s')| <= |Unstopped(s)| - if PcOf(s, p).Asleep? && PcOf(s', p).Awake? then 1 else 0
  {
    var s' := Next(s, p, a);
    MovesOnly(s, p, a);
    WorkerKeepsFlags(s, p, a);
    hide Next;
    if PcOf(s, p).Asleep? && PcOf(s', p).Awake? {
      assert Unstopped(s') == Unstopped(s) - {p} && p in Unstopped(s);
    } else {
      assert Unstopped(s') <= Unstopped(s);
      SubsetSize(Unstopped(s'), Unstopped(s));
    }
  }

  lemma WorkerKeepsFlags(s: State, p: Tid, a: Action)
    ensures var s' := Next(s, p, a); s'.workers == s.workers && s.stopping <= s'.stopping
    ensures PcOf(s, p).Awake? && p in s.stopping ==> PcOf(Next(s, p, a), p).Awake? || PcOf(Next(s, p, a), p).Stopped?
    ensures PcOf(s, p).Stopped? ==> PcOf(Next(s, p, a), p).Stopped?
  {
  }

  lemma FiniStarts(s: State, p: Tid)
    requires PcOf(s, p).Idle?
    ensures PcOf(Next(s, p, Fini), p).Closing?
  {
  }

  lemma FiniGoesOn(s: State, p: Tid, q: Tid, a: Action)
    requires PcOf(s, p).Closing?
    ensures PcOf(Next(s, q, a), p).Closing? || (q == p && a.Step? && PcOf(Next(s, q, a), p).Idle?)
  {
    MovesOnly(s, q, a);
  }

  /** What a call of `tu_tp_fini` at step `i`, the first to return at `k`, has come to at step `m`. */
  lemma {:induction false} Finishing(s: State, t: seq<(Tid, Action)>, p: Tid, i: nat, k: nat, m: nat)
    requires RolesInv(s) && i < m <= |t| && i < k && t[i] == (p, Fini) && PcOf(After(s, t, i), p).Idle?
    requires k <= |t| ==> PcOf(After(s, t, k), p).Idle?
    requires forall j: nat :: i < j < k && j <= |t| ==> !PcOf(After(s, t, j), p).Idle?
    ensures RolesInv(After(s, t, m)) && if m < k then PcOf(After(s, t, m), p).Closing? else ShutDown(After(s, t, m))
    decreases m
  {
    hide After, Next, RolesInv, ShutDown;
    var before := After(s, t, m - 1);
    OneMore(s, t, m - 1);
    RunKeepsRoles(s, t, m - 1);
    NextRoles(before, t[m - 1].0, t[m - 1].1);
    if m - 1 == i {
      FiniStarts(before, p);
    } else {
      Finishing(s, t, p, i, k, m - 1);
      if m <= k {
        FiniGoesOn(before, p, t[m - 1].0, t[m - 1].1);
        if m == k { FiniShutsDown(before, p); }
      } else {
        StaysShutDown(before, t[m - 1].0, t[m - 1].1);
      }
    }
  }

  lemma {:induction false} RunKeepsRoles(s: State, t: seq<(Tid, Action)>, k: nat)
    requires RolesInv(s) && k <= |t|
    ensures RolesInv(After(s, t, k))
    decreases k
  {
    hide RolesInv, Next, After;
    if k == 0 {
      NoSteps(s, t);
    } else {
      RunKeepsRoles(s, t, k - 1);
      OneMore(s, t, k - 1);
      NextRoles(After(s, t, k - 1), t[k - 1].0, t[k - 1].1);
    }
  }

  lemma NoSteps(s: State, t: seq<(Tid, Action)>)
    ensures After(s, t, 0) == s
  {
  }

  /**
    From the return of `tu_tp_fini` on, in every run, all flags are up and there is a permit for every
    worker that has not yet woken to stop.
   */
  lemma FiniReachesEveryWorker(workers: set<Tid>, handles: set<nat>, t: seq<(Tid, Action)>, p: Tid,
                               i: nat, k: nat, m: nat)
    requires i < k <= m <= |t| && t[i] == (p, Fini)
    requires PcOf(After(Init(workers, handles), t, i), p).Idle? && PcOf(After(Init(workers, handles), t, k), p).Idle?
    requires forall j: nat :: i < j < k ==> !PcOf(After(Init(workers, handles), t, j), p).Idle?
    ensures ShutDown(After(Init(workers, handles), t, m))
  {
    hide After, ShutDown;
    Finishing(Init(workers, handles), t, p, i, k, m);
  }

  lemma HolderMoves(s: State, p: Tid, h: nat)
    requires Inv(s) && Holds(PcOf(s, p), h)
    ensures Next(s, p, Step) != s
  {
    assert ThreadInv(s, p);
    assert PcOf(Next(s, p, Step), p) != PcOf(s, p);
    hide JobInv, HandleInv, LockInv, QueueInv;
  }

  lemma WorkerMoves(s: State, p: Tid)
    requires Inv(s) && Working(PcOf(s, p)) && !PcOf(s, p).Lock?
    ensures Next(s, p, Step) != s
  {
    if !PcOf(s, p).Awake? && !PcOf(s, p).Pop? && !PcOf(s, p).Exec? {
      HolderMoves(s, p, PcOf(s, p).h);
    } else {
      assert PcOf(Next(s, p, Step), p) != PcOf(s, p);
    }
    hide Inv;
  }

  lemma LockMoves(s: State, p: Tid)
    requires Inv(s) && PcOf(s, p).Lock?
    ensures exists q: Tid :: Next(s, q, Step) != s
  {
    assert ThreadInv(s, p) && JobInv(s, PcOf(s, p).j);
    var h := PcOf(s, p).h;
    if s.handles[h].lock.Some? {
      HolderOf(s, h);
      HolderMoves(s, s.handles[h].lock.value, h);
    } else {
      assert PcOf(Next(s, p, Step), p) != PcOf(s, p);
    }
    hide Inv, Next;
  }

  /** After that the pool only comes to rest with every worker stopped: `join` has nothing to wait for. */
  lemma RestMeansStopped(s: State, w: Tid)
    requires Inv(s) && RolesInv(s) && ShutDown(s) && w in s.workers && forall q: Tid :: Next(s, q, Step) == s
    ensures PcOf(s, w).Stopped?
  {
    hide Inv, Next;
    assert Next(s, w, Step) == s;
    if PcOf(s, w).Asleep? {
      assert w in Unstopped(s);
      SleeperMoves(s, w);
    } else if PcOf(s, w).Lock? {
      LockMoves(s, w);
    } else if Working(PcOf(s, w)) {
      WorkerMoves(s, w);
    }
  }

  lemma SleeperMoves(s: State, w: Tid)
    requires PcOf(s, w).Asleep? && s.permits > 0
    ensures Next(s, w, Step) != s
  {
    assert PcOf(Next(s, w, Step), w).Awake?;
  }

  /** And a worker left alone does stop, wherever it is. */
  lemma LoneStop(s: State, p: Tid) returns (n: nat)
    requires Inv(s) && RolesInv(s) && Unhindered(s, p) && ShutDown(s) && p in s.workers
    ensures PcOf(Alone(s, p, n), p).Stopped?
  {
    hide Inv, RolesInv, Unhindered;
    RoleOf(s, p);
    if PcOf(s, p).Stopped? {
      n := 0;
    } else if PcOf(s, p).Awake? {
      n := 1;
      WakesToStop(s, p);
    } else if PcOf(s, p).Asleep? {
      n := 2;
      StillUnstopped(s, p);
      SleepsToStop(s, p);
    } else {
      var m := LoneWorker(s, p);
      StillUnstopped(s, p);
      SleepsToStop(Alone(s, p, m), p);
      AloneAdds(s, p, m, 2);
      n := m + 2;
    }
  }

  lemma RoleOf(s: State, p: Tid)
    requires RolesInv(s)
    ensures IsWorker(PcOf(s, p)) <==> p in s.workers
  {
  }

  lemma StillUnstopped(s: State, p: Tid)
    requires ShutDown(s) && p in s.workers && !PcOf(s, p).Awake? && !PcOf(s, p).Stopped?
    ensures s.permits > 0 && p in s.stopping
  {
    assert p in Unstopped(s);
  }

  lemma WakesToStop(s: State, p: Tid)
    requires PcOf(s, p).Awake? && p in s.stopping
    ensures PcOf(Alone(s, p, 1), p).Stopped?
  {
    assert Alone(Next(s, p, Step), p, 0) == Next(s, p, Step);
  }

  lemma SleepsToStop(s: State, p: Tid)
    requires PcOf(s, p).Asleep? && p in s.stopping && s.permits > 0
    ensures PcOf(Alone(s, p, 2), p).Stopped?
  {
    WakesToStop(Next(s, p, Step), p);
  }

  lemma {:induction false} AloneAdds(s: State, p: Tid, m: nat, n: nat)
    ensures Alone(Alone(s, p, m), p, n) == Alone(s, p, m + n)
    decreases m
  {
    hide Next;
    if m == 0 {
    } else {
      AloneAdds(Next(s, p, Step), p, m - 1, n);
    }
  }
}
