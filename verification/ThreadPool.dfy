/**
  The thread pool as a machine over its shared accesses.  Callers submit jobs under a handle
  and wait for the handle; workers take jobs from one queue, run them, and count the handle
  down under its mutex.  The job queue answers as one atomic queue (see `LinkedQueue`).
 */
module ThreadPool {
  import opened Common

  /** Where a job is: with its submitter, queued, with a worker (run or not yet), or counted off. */
  datatype Place = Submitting(p: Tid) | Queued | Running(w: Tid, ran: bool) | Over

  /** A job is known by its index; `runs` is history: how often its function was called. */
  datatype Job = Job(handle: nat, at: Place, runs: nat)

  /** `open` is history: the jobs of the handle that are not over. */
  datatype Handle = Handle(count: int, lock: Option<Tid>, open: set<nat>)

  datatype Pc =
    | Idle
    | Pushing(h: nat, todo: seq<nat>, n: nat)
    | Releasing(n: nat)
    | WaitLock(h: nat)
    | WaitCheck(h: nat)
    | WaitDone(h: nat)
    | Closing(left: set<Tid>)
    | Asleep
    | Awake
    | Pop
    | Exec(j: nat, h: nat)
    | Lock(j: nat, h: nat)
    | Dec(j: nat, h: nat)
    | Test(h: nat)
    | Notify(h: nat)
    | Unlock(h: nat)
    | Stopped

  datatype State = State(workers: set<Tid>, pcs: map<Tid, Pc>, jobs: seq<Job>, handles: map<nat, Handle>,
                         queue: seq<nat>, permits: nat, stopping: set<Tid>)

  /** A call of an idle thread, the next flag that `tu_tp_fini` raises, or another access of a running one. */
  datatype Action = Submit(h: nat, n: nat) | Wait(h: nat) | Fini | Close(w: Tid) | Step

  function PcOf(s: State, p: Tid): Pc { if p in s.pcs then s.pcs[p] else Idle }

  function Goto(s: State, p: Tid, pc: Pc): State { s.(pcs := s.pcs[p := pc]) }

  function SetJob(s: State, j: nat, at: Place, runs: nat): State {
    if j < |s.jobs| then s.(jobs := s.jobs[j := s.jobs[j].(at := at, runs := runs)]) else s
  }

  function SetLock(s: State, h: nat, lock: Option<Tid>): State {
    if h in s.handles then s.(handles := s.handles[h := s.handles[h].(lock := lock)]) else s
  }

  function Runs(s: State, j: nat): nat { if j < |s.jobs| then s.jobs[j].runs else 0 }

  /** Every worker asleep; the handles given by the callers are unused. */
  function Init(workers: set<Tid>, handles: set<nat>): State {
    State(workers, map w | w in workers :: Asleep, [], map h | h in handles :: Handle(0, None, {}), [], 0, {})
  }

  function Fresh(from: nat, n: nat): (r: seq<nat>)
    ensures |r| == n && forall i :: 0 <= i < n ==> r[i] == from + i
  {
    seq(n, i requires 0 <= i => from + i)
  }

  function Range(from: nat, n: nat): (r: set<nat>)
    ensures |r| == n && forall j :: j in r <==> from <= j < from + n
  {
    if n == 0 then {} else Range(from, n - 1) + {from + n - 1}
  }

  /** A handle may be given to a new call once the jobs of the call before are counted off. */
  predicate MaySubmit(s: State, h: nat) { h in s.handles && s.handles[h].count == 0 }

  /** `tu_tp_lauch` with `n` jobs, `tu_tp_exec` with one: the count is stored, then each job pushed. */
  function StartSubmit(s: State, p: Tid, h: nat, n: nat): State
    requires h in s.handles
  {
    var from := |s.jobs|;
    Goto(s, p, Pushing(h, Fresh(from, n), n)).(
      jobs := s.jobs + seq(n, _ => Job(h, Submitting(p), 0)),
      handles := s.handles[h := s.handles[h].(count := n, open := Range(from, n))])
  }

  function Next(s: State, p: Tid, a: Action): State {
    match a
    case Submit(h, n) => if PcOf(s, p).Idle? && MaySubmit(s, h) then StartSubmit(s, p, h, n) else s
    case Wait(h) => if PcOf(s, p).Idle? && h in s.handles then Goto(s, p, WaitLock(h)) else s
    case Fini => if PcOf(s, p).Idle? then Goto(s, p, Closing(s.workers)) else s
    case Close(w) =>
      if PcOf(s, p).Closing? && w in PcOf(s, p).left then
        Goto(s, p, Closing(PcOf(s, p).left - {w})).(stopping := s.stopping + {w})
      else s
    case Step => if IsWorker(PcOf(s, p)) then WorkerStep(s, p) else CallerStep(s, p)
  }

  predicate IsWorker(pc: Pc) {
    pc.Asleep? || pc.Awake? || pc.Pop? || pc.Exec? || pc.Lock? || pc.Dec? || pc.Test? || pc.Notify? || pc.Unlock?
    || pc.Stopped?
  }

  function CallerStep(s: State, p: Tid): State {
    match PcOf(s, p)
    case Pushing(h, todo, n) =>
      if todo == [] then Goto(s, p, Releasing(n))
      else
        Goto(SetJob(s, todo[0], Queued, Runs(s, todo[0])), p, Pushing(h, todo[1..], n)).(
          queue := s.queue + [todo[0]])
    case Releasing(n) => Goto(s, p, Idle).(permits := s.permits + n)
    case WaitLock(h) =>
      if h in s.handles && s.handles[h].lock == None then Goto(SetLock(s, h, Some(p)), p, WaitCheck(h)) else s
    case WaitCheck(h) =>
      if h in s.handles && s.handles[h].count == 0 then Goto(s, p, WaitDone(h))
      else Goto(SetLock(s, h, None), p, WaitLock(h))
    case WaitDone(h) => Goto(SetLock(s, h, None), p, Idle)
    case Closing(left) => if left == {} then Goto(s, p, Idle).(permits := s.permits + |s.workers|) else s
    case _ => s
  }

  function WorkerStep(s: State, p: Tid): State {
    match PcOf(s, p)
    case Asleep => if s.permits > 0 then Goto(s, p, Awake).(permits := s.permits - 1) else s
    case Awake => Goto(s, p, if p in s.stopping then Stopped else Pop)
    case Pop => Take(s, p)
    case Exec(j, h) => Goto(SetJob(s, j, Running(p, true), Runs(s, j) + 1), p, Lock(j, h))
    case Lock(j, h) =>
      if h in s.handles && s.handles[h].lock == None then Goto(SetLock(s, h, Some(p)), p, Dec(j, h)) else s
    case Dec(j, h) => CountDown(s, p, j, h)
    case Test(h) => Goto(s, p, if h in s.handles && s.handles[h].count == 0 then Notify(h) else Unlock(h))
    case Notify(h) => Goto(s, p, Unlock(h))
    case Unlock(h) => Goto(SetLock(s, h, None), p, Pop)
    case _ => s
  }

  function Take(s: State, p: Tid): State {
    if s.queue == [] then Goto(s, p, Asleep)
    else
      var j := s.queue[0];
      var h := if j < |s.jobs| then s.jobs[j].handle else 0;
      Goto(SetJob(s, j, Running(p, false), Runs(s, j)), p, Exec(j, h)).(queue := s.queue[1..])
  }

  /** The decrement in `tu_tp_progress_op`, with the mutex held; the count is read again after it. */
  function CountDown(s: State, p: Tid, j: nat, h: nat): State {
    if h !in s.handles then s
    else
      var d := s.handles[h];
      var s1 := SetJob(s, j, Over, Runs(s, j));
      Goto(s1, p, Test(h)).(
        handles := s.handles[h := d.(count := d.count - 1, open := d.open - {j})])
  }

  function Run(s: State, schedule: seq<(Tid, Action)>): State
    decreases |schedule|
  {
    if schedule == [] then s else Run(Next(s, schedule[0].0, schedule[0].1), schedule[1..])
  }

  // ----- the invariant ------------------------------------------------------------------------

  predicate Holds(pc: Pc, h: nat) {
    match pc
    case WaitCheck(k) => k == h
    case WaitDone(k) => k == h
    case Dec(_, k) => k == h
    case Test(k) => k == h
    case Notify(k) => k == h
    case Unlock(k) => k == h
    case _ => false
  }

  ghost predicate JobInv(s: State, j: nat)
    requires j < |s.jobs|
  {
    var b := s.jobs[j];
    && b.handle in s.handles
    && (j in s.handles[b.handle].open <==> b.at != Over)
    && b.runs == (if b.at.Over? || (b.at.Running? && b.at.ran) then 1 else 0)
    && (b.at.Queued? <==> j in s.queue)
    && match b.at
       case Submitting(p) => PcOf(s, p).Pushing? && j in PcOf(s, p).todo
       case Running(w, ran) =>
         if ran then PcOf(s, w) in {Lock(j, b.handle), Dec(j, b.handle)} else PcOf(s, w) == Exec(j, b.handle)
       case _ => true
  }

  ghost predicate Has(s: State, j: nat, h: nat, at: Place) {
    j < |s.jobs| && s.jobs[j].handle == h && s.jobs[j].at == at
  }

  ghost predicate ThreadInv(s: State, p: Tid) {
    match PcOf(s, p)
    case Pushing(h, todo, n) =>
      h in s.handles && |todo| <= n && Distinct(todo) && forall j :: j in todo ==> Has(s, j, h, Submitting(p))
    case WaitLock(h) => h in s.handles
    case WaitCheck(h) => h in s.handles
    case WaitDone(h) => h in s.handles
    case Exec(j, h) => Has(s, j, h, Running(p, false))
    case Lock(j, h) => Has(s, j, h, Running(p, true))
    case Dec(j, h) => Has(s, j, h, Running(p, true))
    case Test(h) => h in s.handles
    case Notify(h) => h in s.handles
    case Unlock(h) => h in s.handles
    case _ => true
  }

  ghost predicate HandleInv(s: State, h: nat)
    requires h in s.handles
  {
    && s.handles[h].count == |s.handles[h].open|
    && forall j :: j in s.handles[h].open ==> j < |s.jobs| && s.jobs[j].handle == h
  }

  ghost predicate LockInv(s: State) {
    forall p: Tid, h: nat :: Holds(PcOf(s, p), h) <==> h in s.handles && s.handles[h].lock == Some(p)
  }

  ghost predicate QueueInv(s: State) {
    Distinct(s.queue) && forall j :: j in s.queue ==> j < |s.jobs|
  }

  ghost predicate Inv(s: State) {
    && (forall j: nat :: j < |s.jobs| ==> JobInv(s, j))
    && (forall p: Tid :: ThreadInv(s, p))
    && (forall h :: h in s.handles ==> HandleInv(s, h))
    && LockInv(s) && QueueInv(s)
  }

  lemma InitInv(workers: set<Tid>, handles: set<nat>)
    ensures Inv(Init(workers, handles))
  {
  }

  // ----- steps that move no job ----------------------------------------------------------------

  ghost predicate OthersStay(s: State, s': State, p: Tid) {
    forall q: Tid :: q != p ==> PcOf(s', q) == PcOf(s, q)
  }

  /** Only locks, permits and the program counter of `p` change. */
  ghost predicate Plain(s: State, s': State, p: Tid) {
    && OthersStay(s, s', p)
    && s'.jobs == s.jobs && s'.queue == s.queue
    && s'.handles.Keys == s.handles.Keys
    && (forall h :: h in s.handles ==>
          s'.handles[h].count == s.handles[h].count && s'.handles[h].open == s.handles[h].open)
  }

  /** The jobs a thread has. */
  function Mine(pc: Pc): set<nat> {
    match pc
    case Pushing(_, todo, _) => set j | j in todo
    case Exec(j, _) => {j}
    case Lock(j, _) => {j}
    case Dec(j, _) => {j}
    case _ => {}
  }

  lemma PlainJobs(s: State, s': State, p: Tid)
    requires Inv(s) && Plain(s, s', p)
    requires Mine(PcOf(s, p)) == {} || (PcOf(s, p).Lock? && PcOf(s', p) == Dec(PcOf(s, p).j, PcOf(s, p).h))
    ensures forall j: nat :: j < |s'.jobs| ==> JobInv(s', j)
    ensures forall q: Tid :: q != p ==> ThreadInv(s', q)
    ensures forall h :: h in s'.handles ==> HandleInv(s', h)
    ensures QueueInv(s')
  {
    hide LockInv;
    forall j: nat | j < |s'.jobs| ensures JobInv(s', j) {
      assert JobInv(s, j);
      assert j in Mine(PcOf(s, p)) ==> PcOf(s, p).Lock?;
    }
    forall q: Tid | q != p ensures ThreadInv(s', q) {
      assert ThreadInv(s, q) && PcOf(s', q) == PcOf(s, q);
    }
    forall h | h in s'.handles ensures HandleInv(s', h) {
      assert HandleInv(s, h);
    }
  }

  // ----- the mutexes ---------------------------------------------------------------------------

  lemma LocksStay(s: State, s': State, p: Tid)
    requires LockInv(s) && OthersStay(s, s', p) && s'.handles.Keys == s.handles.Keys
    requires forall h :: h in s.handles ==> s'.handles[h].lock == s.handles[h].lock
    requires forall h :: Holds(PcOf(s', p), h) <==> Holds(PcOf(s, p), h)
    ensures LockInv(s')
  {
  }

  lemma LockTaken(s: State, s': State, p: Tid, h: nat)
    requires LockInv(s) && OthersStay(s, s', p) && h in s.handles && s.handles[h].lock == None
    requires s'.handles == s.handles[h := s.handles[h].(lock := Some(p))]
    requires forall k :: Holds(PcOf(s', p), k) <==> k == h
    requires forall k :: !Holds(PcOf(s, p), k)
    ensures LockInv(s')
  {
  }

  lemma LockFreed(s: State, s': State, p: Tid, h: nat)
    requires LockInv(s) && OthersStay(s, s', p) && h in s.handles
    requires s'.handles == s.handles[h := s.handles[h].(lock := None)]
    requires forall k :: Holds(PcOf(s, p), k) <==> k == h
    requires forall k :: !Holds(PcOf(s', p), k)
    ensures LockInv(s')
  {
    assert Holds(PcOf(s, p), h);
  }

  // ----- steps that move one job ----------------------------------------------------------------

  /** Job `j` moves to `at`; nothing else about jobs changes. */
  ghost predicate Moves(s: State, s': State, p: Tid, j: nat, at: Place, runs: nat) {
    && OthersStay(s, s', p)
    && j < |s.jobs| && s'.jobs == s.jobs[j := s.jobs[j].(at := at, runs := runs)]
    && s'.handles.Keys == s.handles.Keys
  }

  /** The other threads keep what they know: the moved job was not theirs. */
  lemma OthersKnow(s: State, s': State, p: Tid, j: nat, at: Place, runs: nat, q: Tid)
    requires Inv(s) && Moves(s, s', p, j, at, runs) && q != p
    requires s.jobs[j].at == Queued || j in Mine(PcOf(s, p))
    ensures ThreadInv(s', q)
  {
    assert ThreadInv(s, q) && ThreadInv(s, p) && PcOf(s', q) == PcOf(s, q);
    assert j !in Mine(PcOf(s, q));
    hide JobInv, HandleInv, LockInv, QueueInv;
  }

  /** The other jobs stay where they are. */
  lemma OtherJobs(s: State, s': State, p: Tid, j: nat, at: Place, runs: nat, i: nat)
    requires Inv(s) && Moves(s, s', p, j, at, runs) && i < |s.jobs| && i != j
    requires i in Mine(PcOf(s, p)) ==> PcOf(s, p).Pushing? && PcOf(s', p).Pushing? && i in PcOf(s', p).todo
    requires i in s'.queue <==> i in s.queue
    requires forall h :: h in s.handles ==> (i in s'.handles[h].open <==> i in s.handles[h].open)
    ensures JobInv(s', i)
  {
    assert JobInv(s, i);
    hide ThreadInv, HandleInv, LockInv, QueueInv;
  }

  lemma PushOneKeepsInv(s: State, p: Tid)
    requires Inv(s) && PcOf(s, p).Pushing? && PcOf(s, p).todo != []
    ensures Inv(Next(s, p, Step))
  {
    var pc := PcOf(s, p);
    var s' := Next(s, p, Step);
    var j := pc.todo[0];
    assert ThreadInv(s, p) && j in pc.todo && JobInv(s, j);
    assert Moves(s, s', p, j, Queued, 0);
    Shift(pc.todo);
    forall q: Tid ensures ThreadInv(s', q) {
      if q != p { OthersKnow(s, s', p, j, Queued, 0, q); }
    }
    forall i: nat | i < |s'.jobs| ensures JobInv(s', i) {
      if i != j { OtherJobs(s, s', p, j, Queued, 0, i); }
    }
    forall h | h in s'.handles ensures HandleInv(s', h) { assert HandleInv(s, h); }
    LocksStay(s, s', p);
    hide JobInv, ThreadInv, HandleInv, LockInv;
  }

  lemma Shift(q: seq<nat>)
    requires q != [] && Distinct(q)
    ensures Distinct(q[1..]) && q[0] !in q[1..] && forall j :: j in q <==> j == q[0] || j in q[1..]
  {
    assert q == [q[0]] + q[1..];
  }

  lemma TakeKeepsInv(s: State, p: Tid)
    requires Inv(s) && PcOf(s, p).Pop? && s.queue != []
    ensures Inv(Take(s, p))
  {
    var s' := Take(s, p);
    var j := s.queue[0];
    assert j in s.queue && JobInv(s, j);
    var at := Running(p, false);
    assert Moves(s, s', p, j, at, 0);
    Shift(s.queue);
    forall q: Tid ensures ThreadInv(s', q) {
      if q != p { OthersKnow(s, s', p, j, at, 0, q); }
    }
    forall i: nat | i < |s'.jobs| ensures JobInv(s', i) {
      if i != j { OtherJobs(s, s', p, j, at, 0, i); }
    }
    forall h | h in s'.handles ensures HandleInv(s', h) { assert HandleInv(s, h); }
    LocksStay(s, s', p);
    hide JobInv, ThreadInv, HandleInv, LockInv;
  }

  lemma ExecKeepsInv(s: State, p: Tid)
    requires Inv(s) && PcOf(s, p).Exec?
    ensures Inv(Next(s, p, Step))
  {
    var s' := Next(s, p, Step);
    var j := PcOf(s, p).j;
    assert ThreadInv(s, p) && JobInv(s, j);
    var at := Running(p, true);
    assert Moves(s, s', p, j, at, 1);
    forall q: Tid ensures ThreadInv(s', q) {
      if q != p { OthersKnow(s, s', p, j, at, 1, q); }
    }
    forall i: nat | i < |s'.jobs| ensures JobInv(s', i) {
      if i != j { OtherJobs(s, s', p, j, at, 1, i); }
    }
    forall h | h in s'.handles ensures HandleInv(s', h) { assert HandleInv(s, h); }
    LocksStay(s, s', p);
    hide JobInv, ThreadInv, HandleInv, LockInv;
  }

  lemma CountDownKeepsInv(s: State, p: Tid)
    requires Inv(s) && PcOf(s, p).Dec?
    ensures Inv(Next(s, p, Step))
  {
    var s' := Next(s, p, Step);
    var j, h := PcOf(s, p).j, PcOf(s, p).h;
    assert ThreadInv(s, p) && JobInv(s, j) && HandleInv(s, h);
    assert Moves(s, s', p, j, Over, 1);
    forall q: Tid ensures ThreadInv(s', q) {
      if q != p { OthersKnow(s, s', p, j, Over, 1, q); }
    }
    forall i: nat | i < |s'.jobs| ensures JobInv(s', i) {
      if i != j { OtherJobs(s, s', p, j, Over, 1, i); }
    }
    forall k | k in s'.handles ensures HandleInv(s', k) {
      assert HandleInv(s, k);
      CountDownHandles(s, p, k);
    }
    hide JobInv, ThreadInv, HandleInv, LockInv;
    LocksStay(s, s', p);
  }

  lemma CountDownHandles(s: State, p: Tid, k: nat)
    requires PcOf(s, p).Dec? && ThreadInv(s, p) && JobInv(s, PcOf(s, p).j) && k in s.handles && HandleInv(s, k)
    ensures HandleInv(CountDown(s, p, PcOf(s, p).j, PcOf(s, p).h), k)
  {
  }

  lemma SubmitKeepsInv(s: State, p: Tid, h: nat, n: nat)
    requires Inv(s) && PcOf(s, p).Idle? && MaySubmit(s, h)
    ensures Inv(StartSubmit(s, p, h, n))
  {
    var s' := StartSubmit(s, p, h, n);
    var from := |s.jobs|;
    assert HandleInv(s, h);
    forall q: Tid ensures ThreadInv(s', q) {
      assert ThreadInv(s, q);
      SubmittedThreads(s, p, h, n, q);
    }
    forall i: nat | i < |s'.jobs| ensures JobInv(s', i) {
      if i < from { assert JobInv(s, i); }
      SubmittedJobs(s, p, h, n, i);
    }
    forall k | k in s'.handles ensures HandleInv(s', k) {
      assert HandleInv(s, k);
      SubmittedHandles(s, p, h, n, k);
    }
    hide JobInv, ThreadInv, HandleInv;
    LocksStay(s, s', p);
  }

  lemma SubmittedThreads(s: State, p: Tid, h: nat, n: nat, q: Tid)
    requires ThreadInv(s, q) && PcOf(s, p).Idle? && h in s.handles
    ensures ThreadInv(StartSubmit(s, p, h, n), q)
  {
  }

  lemma SubmittedJobs(s: State, p: Tid, h: nat, n: nat, i: nat)
    requires PcOf(s, p).Idle? && h in s.handles && s.handles[h].open == {} && QueueInv(s) && i < |s.jobs| + n
    requires i < |s.jobs| ==> JobInv(s, i)
    ensures JobInv(StartSubmit(s, p, h, n), i)
  {
    if i >= |s.jobs| {
      assert Fresh(|s.jobs|, n)[i - |s.jobs|] == i;
    }
  }

  lemma SubmittedHandles(s: State, p: Tid, h: nat, n: nat, k: nat)
    requires h in s.handles && k in s.handles && HandleInv(s, k)
    ensures HandleInv(StartSubmit(s, p, h, n), k)
  {
  }

  predicate IsPlain(s: State, p: Tid) {
    var pc := PcOf(s, p);
    && !pc.Exec? && !pc.Dec? && !(pc.Pushing? && pc.todo != []) && !(pc.Pop? && s.queue != [])
    && Next(s, p, Step) != s
  }

  lemma PlainStepIsPlain(s: State, p: Tid)
    requires ThreadInv(s, p) && IsPlain(s, p)
    ensures Plain(s, Next(s, p, Step), p) && ThreadInv(Next(s, p, Step), p)
    ensures PcOf(s, p).Lock? || Mine(PcOf(s, p)) == {}
    ensures PcOf(s, p).Lock? ==> PcOf(Next(s, p, Step), p) == Dec(PcOf(s, p).j, PcOf(s, p).h)
  {
  }

  lemma PlainStepLocks(s: State, p: Tid)
    requires LockInv(s) && ThreadInv(s, p) && IsPlain(s, p) && OthersStay(s, Next(s, p, Step), p)
    ensures LockInv(Next(s, p, Step))
  {
    var s' := Next(s, p, Step);
    var pc := PcOf(s, p);
    if pc.Lock? || pc.WaitLock? {
      LockTaken(s, s', p, pc.h);
    } else if pc.Unlock? || pc.WaitDone? || (pc.WaitCheck? && s.handles[pc.h].count != 0) {
      LockFreed(s, s', p, pc.h);
    } else {
      LocksStay(s, s', p);
    }
    hide LockInv, OthersStay;
  }

  lemma PlainStepKeepsInv(s: State, p: Tid)
    requires Inv(s) && IsPlain(s, p)
    ensures Inv(Next(s, p, Step))
  {
    hide Next, IsPlain, JobInv, ThreadInv, HandleInv, QueueInv, LockInv, OthersStay;
    PlainStepIsPlain(s, p);
    PlainJobs(s, Next(s, p, Step), p);
    PlainStepLocks(s, p);
    assert ThreadInv(s, p);
  }

  lemma NextKeepsInv(s: State, p: Tid, a: Action)
    requires Inv(s)
    ensures Inv(Next(s, p, a))
  {
    var pc := PcOf(s, p);
    if a.Step? {
      hide Inv;
      if pc.Exec? {
        ExecKeepsInv(s, p);
      } else if pc.Dec? {
        CountDownKeepsInv(s, p);
      } else if pc.Pushing? && pc.todo != [] {
        PushOneKeepsInv(s, p);
      } else if pc.Pop? && s.queue != [] {
        TakeKeepsInv(s, p);
      } else if Next(s, p, Step) != s {
        PlainStepKeepsInv(s, p);
      }
    } else if a.Submit? && pc.Idle? && MaySubmit(s, a.h) {
      SubmitKeepsInv(s, p, a.h, a.n);
    } else if Next(s, p, a) != s {
      CallKeepsInv(s, p, a);
    }
  }

  lemma CallKeepsInv(s: State, p: Tid, a: Action)
    requires Inv(s) && if a.Close? then PcOf(s, p).Closing? else PcOf(s, p).Idle?
    requires (a.Wait? && a.h in s.handles) || a.Fini? || a.Close?
    ensures Inv(Next(s, p, a))
  {
    var s' := Next(s, p, a);
    assert Plain(s, s', p) && ThreadInv(s', p);
    PlainJobs(s, s', p);
    hide JobInv, ThreadInv, HandleInv, QueueInv;
    LocksStay(s, s', p);
  }

  lemma {:induction false} RunKeepsInv(s: State, schedule: seq<(Tid, Action)>)
    requires Inv(s)
    ensures Inv(Run(s, schedule))
    decreases |schedule|
  {
    hide Inv, Next;
    if schedule == [] {
    } else {
      NextKeepsInv(s, schedule[0].0, schedule[0].1);
      RunKeepsInv(Next(s, schedule[0].0, schedule[0].1), schedule[1..]);
    }
  }

  // ----- what runs promise -------------------------------------------------------------------------

  /** A handle's count is the number of its jobs still with a submitter, queued or running. */
  lemma CountIsOpenJobs(workers: set<Tid>, handles: set<nat>, schedule: seq<(Tid, Action)>, h: nat)
    requires h in handles
    ensures var s := Run(Init(workers, handles), schedule);
      && h in s.handles && s.handles[h].count == |s.handles[h].open|
      && forall j :: j in s.handles[h].open <==> 0 <= j < |s.jobs| && s.jobs[j].handle == h && s.jobs[j].at != Over
  {
    InitInv(workers, handles);
    RunKeepsInv(Init(workers, handles), schedule);
    RunKeepsHandles(Init(workers, handles), schedule);
    var s := Run(Init(workers, handles), schedule);
    assert HandleInv(s, h);
    forall j: nat | j < |s.jobs| && s.jobs[j].handle == h ensures j in s.handles[h].open <==> s.jobs[j].at != Over {
      assert JobInv(s, j);
    }
    hide Run, Init, ThreadInv, LockInv, QueueInv;
  }

  lemma {:induction false} RunKeepsHandles(s: State, schedule: seq<(Tid, Action)>)
    ensures Run(s, schedule).handles.Keys == s.handles.Keys
    decreases |schedule|
  {
    hide Next;
    if schedule == [] {
    } else {
      NextKeepsHandles(s, schedule[0].0, schedule[0].1);
      RunKeepsHandles(Next(s, schedule[0].0, schedule[0].1), schedule[1..]);
    }
  }

  lemma NextKeepsHandles(s: State, p: Tid, a: Action)
    ensures Next(s, p, a).handles.Keys == s.handles.Keys
  {
    hide CallerStep, WorkerStep;
    CallerKeepsHandles(s, p);
    WorkerKeepsHandles(s, p);
  }

  lemma CallerKeepsHandles(s: State, p: Tid)
    ensures CallerStep(s, p).handles.Keys == s.handles.Keys
  {
  }

  lemma WorkerKeepsHandles(s: State, p: Tid)
    ensures WorkerStep(s, p).handles.Keys == s.handles.Keys
  {
  }

  /** Every job submitted under `h` has run, exactly once. */
  ghost predicate AllRan(s: State, h: nat) {
    forall j: nat :: j < |s.jobs| && s.jobs[j].handle == h ==> s.jobs[j].at == Over && s.jobs[j].runs == 1
  }

  lemma ZeroMeansAllRan(s: State, h: nat)
    requires Inv(s) && h in s.handles && s.handles[h].count == 0
    ensures AllRan(s, h)
    ensures forall q :: Progresses(PcOf(s, q), h) ==> Holds(PcOf(s, q), h) && !PcOf(s, q).Dec?
  {
    assert HandleInv(s, h);
    assert s.handles[h].open == {};
    forall j: nat | j < |s.jobs| && s.jobs[j].handle == h ensures s.jobs[j].at == Over && s.jobs[j].runs == 1 {
      assert JobInv(s, j);
    }
    forall q ensures Progresses(PcOf(s, q), h) ==> Holds(PcOf(s, q), h) && !PcOf(s, q).Dec? {
      assert ThreadInv(s, q);
    }
    hide LockInv, QueueInv;
  }

  /** A worker in `tu_tp_progress_op` for handle `h`. */
  predicate Progresses(pc: Pc, h: nat) {
    match pc
    case Lock(_, k) => k == h
    case Dec(_, k) => k == h
    case Test(k) => k == h
    case Notify(k) => k == h
    case Unlock(k) => k == h
    case _ => false
  }

  /** The jobs have all run, and no worker is inside the last lines of `tu_tp_progress_op` for `h`. */
  ghost predicate Finished(s: State, h: nat) {
    AllRan(s, h) && forall q: Tid :: !Progresses(PcOf(s, q), h)
  }

  lemma CheckMeansFinished(s: State, p: Tid, h: nat)
    requires Inv(s) && PcOf(s, p) == WaitCheck(h) && PcOf(Next(s, p, Step), p) == WaitDone(h)
    ensures Finished(s, h)
  {
    assert ThreadInv(s, p);
    ZeroMeansAllRan(s, h);
    assert Holds(PcOf(s, p), h);
    forall q: Tid ensures !Progresses(PcOf(s, q), h) {
      assert Holds(PcOf(s, q), h) ==> s.handles[h].lock == Some(q);
    }
    hide JobInv, HandleInv, QueueInv, AllRan;
  }

  /**
    When `tu_tp_op_wait` finds the count at zero, every job of the handle has run exactly once,
    and no worker will touch the handle for them again: it may be destroyed.
   */
  lemma WaitMeansAllRan(workers: set<Tid>, handles: set<nat>, schedule: seq<(Tid, Action)>, p: Tid, h: nat)
    requires var s := Run(Init(workers, handles), schedule);
      PcOf(s, p) == WaitCheck(h) && PcOf(Next(s, p, Step), p) == WaitDone(h)
    ensures Finished(Run(Init(workers, handles), schedule), h)
  {
    hide *;
    InitInv(workers, handles);
    RunKeepsInv(Init(workers, handles), schedule);
    CheckMeansFinished(Run(Init(workers, handles), schedule), p, h);
  }

  /**
    `tu_tp_op_done`, which reads the count without the mutex, promises less: in every run, at the
    moment the count of a submitted call reaches zero, a worker still holds the handle's mutex.
   */
  lemma ZeroIsReachedUnderTheMutex(s: State, p: Tid, h: nat)
    requires Inv(s) && h in s.handles && s.handles[h].count > 0
    requires h in Next(s, p, Step).handles && Next(s, p, Step).handles[h].count == 0
    ensures PcOf(Next(s, p, Step), p) == Test(h) && Next(s, p, Step).handles[h].lock == Some(p)
  {
    assert ThreadInv(s, p);
    if PcOf(s, p).Dec? {
      assert Holds(PcOf(s, p), h);
    }
    hide JobInv, HandleInv, QueueInv;
  }

  /**
    And that is the whole difference: with the count at zero the handle may be destroyed if and only
    if its mutex is free, or in the hands of a waiter.
   */
  lemma FinishedAtZero(s: State, h: nat)
    requires Inv(s) && h in s.handles && s.handles[h].count == 0
    ensures Finished(s, h) <==>
      var lock := s.handles[h].lock;
      lock.None? || PcOf(s, lock.value).WaitCheck? || PcOf(s, lock.value).WaitDone?
  {
    ZeroMeansAllRan(s, h);
    var lock := s.handles[h].lock;
    HolderOf(s, h);
    if lock.None? || PcOf(s, lock.value).WaitCheck? || PcOf(s, lock.value).WaitDone? {
      forall q: Tid ensures !Progresses(PcOf(s, q), h) {
        assert Progresses(PcOf(s, q), h) ==> Holds(PcOf(s, q), h);
      }
    } else {
      assert Holds(PcOf(s, lock.value), h);
      assert Progresses(PcOf(s, lock.value), h);
    }
    hide JobInv, ThreadInv, HandleInv, QueueInv, AllRan, LockInv;
  }

  lemma HolderOf(s: State, h: nat)
    requires LockInv(s) && h in s.handles
    ensures forall q: Tid :: Holds(PcOf(s, q), h) <==> s.handles[h].lock == Some(q)
  {
  }

  ghost predicate Leads(s: State, s': State) { exists t: seq<(Tid, Action)> :: Run(s, t) == s' }

  lemma {:induction false} RunAppends(s: State, a: seq<(Tid, Action)>, b: seq<(Tid, Action)>)
    ensures Run(s, a + b) == Run(Run(s, a), b)
    decreases |a|
  {
    if a == [] {
      assert a + b == b;
    } else {
      assert (a + b)[1..] == a[1..] + b;
      RunAppends(Next(s, a[0].0, a[0].1), a[1..], b);
    }
  }

  lemma LeadsOn(s: State, s1: State, p: Tid, a: Action)
    requires Leads(s, s1)
    ensures Leads(s, Next(s1, p, a))
  {
    var t :| Run(s, t) == s1;
    RunAppends(s, t, [(p, a)]);
    assert [(p, a)][1..] == [];
    assert Run(Next(s1, p, a), []) == Next(s1, p, a);
  }

  lemma LeadsSelf(s: State)
    ensures Leads(s, s)
  {
    assert Run(s, []) == s;
  }

  /** One job waits under handle `h`, and a permit for it; the workers sleep. */
  ghost predicate OneWaits(s: State, workers: set<Tid>, h: nat) {
    && h in s.handles && s.handles[h].count == 1 && s.handles[h].lock == None
    && |s.jobs| == 1 && s.jobs[0].handle == h && s.queue == [0] && s.permits == 1 && s.stopping == {}
    && forall w :: w in workers ==> PcOf(s, w).Asleep?
  }

  lemma QueuesOne(workers: set<Tid>, handles: set<nat>, p: Tid, h: nat) returns (s: State)
    requires p !in workers && h in handles
    ensures Leads(Init(workers, handles), s) && PcOf(s, p) == Pushing(h, [], 1)
    ensures OneWaits(s.(permits := 1), workers, h) && s.permits == 0
  {
    hide Leads;
    var s0 := Init(workers, handles);
    LeadsSelf(s0);
    var s1 := Next(s0, p, Submit(h, 1));
    LeadsOn(s0, s0, p, Submit(h, 1));
    assert PcOf(s1, p) == Pushing(h, [0], 1);
    s := Next(s1, p, Step);
    LeadsOn(s0, s1, p, Step);
  }

  /** A caller submits one job. */
  lemma SubmitsOne(workers: set<Tid>, handles: set<nat>, p: Tid, h: nat) returns (s: State)
    requires p !in workers && h in handles
    ensures Leads(Init(workers, handles), s) && OneWaits(s, workers, h)
  {
    hide Leads, Init;
    var s2 := QueuesOne(workers, handles, p, h);
    var s3 := Next(s2, p, Step);
    LeadsOn(Init(workers, handles), s2, p, Step);
    s := Next(s3, p, Step);
    LeadsOn(Init(workers, handles), s3, p, Step);
  }

  /** A worker wakes and takes the job. */
  lemma TakesOne(s0: State, s: State, workers: set<Tid>, w: Tid, h: nat) returns (s': State)
    requires Leads(s0, s) && OneWaits(s, workers, h) && w in workers
    ensures Leads(s0, s') && PcOf(s', w) == Exec(0, h)
    ensures h in s'.handles && s'.handles[h].count == 1 && s'.handles[h].lock == None
  {
    hide Leads;
    var s1 := Next(s, w, Step);
    LeadsOn(s0, s, w, Step);
    assert PcOf(s1, w) == Awake;
    var s2 := Next(s1, w, Step);
    LeadsOn(s0, s1, w, Step);
    assert PcOf(s2, w) == Pop && s2.queue == [0];
    s' := Next(s2, w, Step);
    LeadsOn(s0, s2, w, Step);
  }

  /** It runs the job and locks the mutex. */
  lemma RunsOne(s0: State, s: State, w: Tid, h: nat) returns (s': State)
    requires Leads(s0, s) && PcOf(s, w) == Exec(0, h)
    requires h in s.handles && s.handles[h].count == 1 && s.handles[h].lock == None
    ensures Leads(s0, s') && PcOf(s', w) == Dec(0, h)
    ensures h in s'.handles && s'.handles[h].count == 1 && s'.handles[h].lock == Some(w)
  {
    hide Leads;
    var s1 := Next(s, w, Step);
    LeadsOn(s0, s, w, Step);
    assert PcOf(s1, w) == Lock(0, h) && s1.handles == s.handles;
    s' := Next(s1, w, Step);
    LeadsOn(s0, s1, w, Step);
  }

  /** It counts the job off and is about to notify, with the mutex in hand. */
  lemma CountsOff(s0: State, s: State, w: Tid, h: nat) returns (s': State)
    requires Leads(s0, s) && PcOf(s, w) == Dec(0, h)
    requires h in s.handles && s.handles[h].count == 1 && s.handles[h].lock == Some(w)
    ensures Leads(s0, s') && PcOf(s', w) == Notify(h)
    ensures h in s'.handles && s'.handles[h].count == 0 && s'.handles[h].lock == Some(w)
  {
    hide Leads;
    var s1 := Next(s, w, Step);
    LeadsOn(s0, s, w, Step);
    assert PcOf(s1, w) == Test(h) && s1.handles[h].lock == Some(w) && s1.handles[h].count == 0;
    s' := Next(s1, w, Step);
    LeadsOn(s0, s1, w, Step);
  }

  /**
    It happens: with any workers and handles some run gets to a count of zero, which a poller may
    see, with a worker that has yet to notify and to release the mutex.
   */
  lemma PollerMayBeEarly(workers: set<Tid>, handles: set<nat>, w: Tid, p: Tid, h: nat)
    requires w in workers && p !in workers && h in handles
    ensures exists t: seq<(Tid, Action)> :: var s := Run(Init(workers, handles), t);
      h in s.handles && s.handles[h].count == 0 && PcOf(s, w) == Notify(h) && !Finished(s, h)
  {
    hide Init, Next, Run, OneWaits, AllRan;
    var s1 := SubmitsOne(workers, handles, p, h);
    var s2 := TakesOne(Init(workers, handles), s1, workers, w, h);
    s2 := RunsOne(Init(workers, handles), s2, w, h);
    var s3 := CountsOff(Init(workers, handles), s2, w, h);
    var t: seq<(Tid, Action)> :| Run(Init(workers, handles), t) == s3;
    assert Progresses(PcOf(s3, w), h);
    assert !Finished(Run(Init(workers, handles), t), h);
  }

  // ----- no job is left behind ------------------------------------------------------------------------

  /** Owes the semaphore a release, or is awake and will look at the queue again. */
  predicate Bound(pc: Pc) {
    || ((pc.Pushing? || pc.Releasing?) && pc.n > 0)
    || pc.Awake? || pc.Pop? || pc.Exec? || pc.Lock? || pc.Dec? || pc.Test? || pc.Notify? || pc.Unlock?
  }

  /** Before shutdown a queued job is attended to. */
  ghost predicate Attended(s: State) {
    s.stopping != {} || s.queue == [] || s.permits > 0 || exists p: Tid :: Bound(PcOf(s, p))
  }

  /** A worker that moves while there is work is bound to come back to the queue. */
  lemma WorkerStaysBound(s: State, p: Tid)
    requires s.stopping == {} && s.queue != [] && WorkerStep(s, p) != s
    ensures Bound(PcOf(WorkerStep(s, p), p))
  {
  }

  lemma WorkerKeepsAttended(s: State, p: Tid)
    requires Attended(s)
    ensures Attended(WorkerStep(s, p))
  {
    if s.stopping == {} && s.queue != [] && WorkerStep(s, p) != s {
      WorkerStaysBound(s, p);
    }
  }

  lemma CallerKeepsAttended(s: State, p: Tid)
    requires Attended(s) && ThreadInv(s, p)
    ensures Attended(CallerStep(s, p))
  {
    var s' := CallerStep(s, p);
    if q: Tid :| q != p && Bound(PcOf(s, q)) {
      assert PcOf(s', q) == PcOf(s, q);
    } else {
      assert Bound(PcOf(s, p)) ==> Bound(PcOf(s', p)) || s'.permits > 0;
    }
  }

  lemma CallKeepsAttended(s: State, p: Tid, a: Action)
    requires Attended(s) && !a.Step?
    ensures Attended(Next(s, p, a))
  {
    var s' := Next(s, p, a);
    if q: Tid :| Bound(PcOf(s, q)) {
      assert s' != s ==> q != p;
      assert PcOf(s', q) == PcOf(s, q);
    }
  }

  lemma {:induction false} RunKeepsAttended(s: State, schedule: seq<(Tid, Action)>)
    requires Inv(s) && Attended(s)
    ensures Attended(Run(s, schedule)) && Inv(Run(s, schedule))
    decreases |schedule|
  {
    hide JobInv, HandleInv, LockInv, QueueInv, WorkerStep, CallerStep, ThreadInv, Attended;
    if schedule == [] {
    } else {
      var (p, a) := schedule[0];
      NextKeepsInv(s, p, a);
      if a.Step? {
        assert ThreadInv(s, p);
        WorkerKeepsAttended(s, p);
        CallerKeepsAttended(s, p);
      } else {
        CallKeepsAttended(s, p, a);
      }
      RunKeepsAttended(Next(s, p, a), schedule[1..]);
    }
  }

  /** Neither submitting nor at work on a job. */
  predicate AtRest(pc: Pc) {
    pc.Idle? || pc.Asleep? || pc.Stopped? || pc.WaitLock? || pc.WaitCheck? || pc.WaitDone?
  }

  /** Before shutdown the pool only comes to rest with every job run and every count at zero. */
  lemma RestMeansAllRan(workers: set<Tid>, handles: set<nat>, schedule: seq<(Tid, Action)>, h: nat)
    requires h in handles
    requires var s := Run(Init(workers, handles), schedule);
      s.stopping == {} && s.permits == 0 && forall q :: AtRest(PcOf(s, q))
    ensures var s := Run(Init(workers, handles), schedule);
      h in s.handles && s.handles[h].count == 0 && AllRan(s, h)
  {
    InitInv(workers, handles);
    RunKeepsAttended(Init(workers, handles), schedule);
    RunKeepsHandles(Init(workers, handles), schedule);
    var s := Run(Init(workers, handles), schedule);
    hide Run, JobInv, HandleInv, LockInv, QueueInv, ThreadInv, AllRan;
    assert forall q :: !Bound(PcOf(s, q));
    AtRestIsDone(s, h);
  }

  lemma AtRestIsDone(s: State, h: nat)
    requires Inv(s) && h in s.handles && s.queue == [] && forall q :: AtRest(PcOf(s, q))
    ensures s.handles[h].count == 0 && AllRan(s, h)
  {
    assert HandleInv(s, h);
    forall j: nat | j < |s.jobs| ensures s.jobs[j].at == Over && s.jobs[j].runs == 1 {
      JobAtRest(s, j);
    }
    forall j: nat | j < |s.jobs| && s.jobs[j].handle == h ensures j !in s.handles[h].open {
      assert JobInv(s, j);
    }
    assert s.handles[h].open == {};
    hide ThreadInv, LockInv, QueueInv;
  }

  lemma JobAtRest(s: State, j: nat)
    requires j < |s.jobs| && JobInv(s, j) && s.queue == [] && forall q :: AtRest(PcOf(s, q))
    ensures s.jobs[j].at == Over && s.jobs[j].runs == 1
  {
    var q := match s.jobs[j].at case Submitting(p) => p case Running(w, _) => w case _ => 0;
    assert AtRest(PcOf(s, q));
  }
}
