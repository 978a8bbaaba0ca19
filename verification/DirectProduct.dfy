/**
  The blocked matrix product run by the task manager itself: each message is an operation pushed to
  it, each handler call the exec of one.  When the operation counter is zero, and the caller has
  pushed its three matrices, C is its initial value plus A * B.
 */
module DirectProduct {

  import opened Common
  import opened Tiles
  import opened BlockedProduct
  import opened BlockedProductRuns
  import TM = TaskManager
  import Managers = TaskManagerRuns
  import opened TaskManagerCalls

  /**
    The sum state of this version counts nothing and sends no result.  It is that of the machine
    with a count that no run brings to zero.
   */
  function Direct(m: Matrices): (p: Problem)
    ensures Cut(p) && p.total > |p.Jobs()|
  {
    var p := Problem(m, TileCount(m.rows, m.ts), TileCount(m.cols, m.ts), TileCount(m.inner, m.ts), 0);
    p.(total := |p.Jobs()| + 1)
  }

  datatype Kind = KindA | KindB | KindC

  /** What an operation is for: to split a matrix, or to call a handler with one message. */
  datatype Work = Split(kind: Kind) | Call(st: Step)

  /** Work still to be done is in the hands of an exec or of the caller, or pushed as an operation. */
  datatype Where = InHand(p: Tid) | Pushed(x: TM.OpId)

  const PRODUCT_STATE: TM.Sid := 0
  const SUM_STATE: TM.Sid := 1

  /** The state that the work is pushed to; the tasks have none. */
  function StateOf(w: Work): Option<TM.Sid> {
    match w
    case Split(_) => None
    case Call(ArriveA(_)) => Some(PRODUCT_STATE)
    case Call(ArriveB(_)) => Some(PRODUCT_STATE)
    case Call(Multiply(_)) => None
    case Call(Add(_)) => None
    case Call(_) => Some(SUM_STATE)
  }

  /** The states push the tasks, the tasks push to the states, and the caller pushes the splits. */
  function PushOf(w: Work, g: TM.Gid): TM.Action {
    if w.Call? && (w.st.Multiply? || w.st.Add?) then TM.CallPushTask(g) else TM.CallPush(g, StateOf(w))
  }

  /** A message under way in the product. */
  predicate UnderWay(s: State, st: Step) {
    match st
    case ArriveA(t) => t in s.wait.a
    case ArriveB(t) => t in s.wait.b
    case ArriveC(t) => t in s.wait.c
    case Multiply(x) => x in s.flow.jobs
    case TakeP(x) => x in s.flow.parts
    case Add(x) => x in s.flow.pairs
    case TakePC(x) => x in s.flow.summed
  }

  function Messages(s: State): (r: set<Step>)
    ensures forall st :: st in r <==> UnderWay(s, st)
  {
    (set t | t in s.wait.a :: ArriveA(t)) + (set t | t in s.wait.b :: ArriveB(t))
    + (set t | t in s.wait.c :: ArriveC(t))
    + (set x | x in s.flow.jobs :: Multiply(x)) + (set x | x in s.flow.parts :: TakeP(x))
    + (set x | x in s.flow.pairs :: Add(x)) + (set x | x in s.flow.summed :: TakePC(x))
  }

  /** A tile of a matrix that has not been split is not under way yet. */
  predicate IsCut(st: Step, uncut: set<Kind>) {
    match st
    case ArriveA(_) => KindA !in uncut
    case ArriveB(_) => KindB !in uncut
    case ArriveC(_) => KindC !in uncut
    case _ => true
  }

  predicate IsDue(s: State, uncut: set<Kind>, w: Work) {
    match w
    case Split(k) => k in uncut
    case Call(st) => UnderWay(s, st) && IsCut(st, uncut)
  }

  /** The work still to be done. */
  function Due(s: State, uncut: set<Kind>): (r: set<Work>)
    ensures forall w :: w in r <==> IsDue(s, uncut, w)
  {
    (set k | k in uncut :: Split(k)) + (set st | st in Messages(s) && IsCut(st, uncut) :: Call(st))
  }

  /** `work` and `where` are history: what each operation is for, and where the work is that is due. */
  datatype System = System(m: TM.State, prod: State, uncut: set<Kind>, work: seq<Work>, where: map<Work, Where>)

  datatype Action =
    | Push(w: Work, g: TM.Gid)
    | Go(pick: nat, miss: Option<Tid>)
    | Close(worker: Tid)
    | ReleaseAll(g: TM.Gid)

  predicate EmptyHands(s: System, p: Tid) { forall w :: w in s.where ==> s.where[w] != InHand(p) }

  /** Which matrices are whole, once work `w` has begun, and where the product then is. */
  function Uncut(uncut: set<Kind>, w: Work): set<Kind> { if w.Split? then uncut - {w.kind} else uncut }

  function Advance(p: Problem, s: State, w: Work): State {
    if w.Call? && Enabled(s, w.st) then Next(p, s, w.st) else s
  }

  /** The exec has in hand what its handler sends on, and pushes it before it ends. */
  function Begin(p: Problem, s: System, m': TM.State, t: Tid, w: Work): System {
    var prod, uncut := Advance(p, s.prod, w), Uncut(s.uncut, w);
    System(m', prod, uncut, s.work,
           map v | v in Due(prod, uncut) :: if v in s.where && v != w then s.where[v] else InHand(t))
  }

  function Move(p: Problem, s: System, t: Tid, a: Action): System {
    match a
    case Push(w, g) =>
      var m := TM.Next(s.m, t, PushOf(w, g));
      if w in s.where && s.where[w] == InHand(t) && |m.ops| == |s.m.ops| + 1 then
        s.(m := m, work := s.work + [w], where := s.where[w := Pushed(|s.m.ops|)])
      else s
    case Go(pick, miss) =>
      var pc, m := TM.PcOf(s.m, t), TM.Next(s.m, t, TM.Step(pick, miss));
      var x := Started(s.m, m, t);
      if Executing(pc) && !Executing(TM.PcOf(m, t)) && !EmptyHands(s, t) then s
      else if x.Some? && x.value < |s.work| then Begin(p, s, m, t, s.work[x.value])
      else s.(m := m)
    case Close(worker) => s.(m := TM.Next(s.m, t, TM.Close(worker)))
    case ReleaseAll(g) => s.(m := TM.Next(s.m, t, TM.ReleaseAll(g)))
  }

  function Init(p: Problem, groups: set<TM.Gid>, workers: map<Tid, TM.Gid>, caller: Tid): System {
    System(TM.Init(groups, workers), Start(p), {KindA, KindB, KindC}, [],
           map k | k in {KindA, KindB, KindC} :: Split(k) := InHand(caller))
  }

  function Run(p: Problem, s: System, t: seq<(Tid, Action)>): System
    decreases |t|
  {
    if t == [] then s else Run(p, Move(p, s, t[0].0, t[0].1), t[1..])
  }

  // ----- what the calls push ------------------------------------------------------------

  lemma PushAppends(m: TM.State, p: Tid, w: Work, g: TM.Gid)
    requires |TM.Next(m, p, PushOf(w, g)).ops| == |m.ops| + 1
    ensures Appends(m, TM.Next(m, p, PushOf(w, g)), p, g, StateOf(w))
  {
    hide Appends, TM.CountNew, TM.PushTask;
    if PushOf(w, g).CallPush? {
      if TM.MayPush(TM.PcOf(m, p)) { CallAppends(m, p, g, StateOf(w)); }
    } else if TM.MayPush(TM.PcOf(m, p)) && p in m.workers {
      TaskAppends(m, p, g);
    }
  }

  // ----- what the product does with its messages -----------------------------------------------------------

  lemma JobsAreUnique(p: Problem, s: State, x: Job)
    requires Inv(p, s)
    ensures s.flow.jobs[x] <= 1 && s.flow.parts[x] <= 1 && s.flow.pairs[x] <= 1 && s.flow.summed[x] <= 1
  {
    hide QueueInv, HolderInv, CountInv;
    assert Count(s.flow, s.past, x) <= 1;
  }

  lemma MessageIsEnabled(p: Problem, s: State, st: Step)
    requires Inv(p, s) && UnderWay(s, st)
    ensures Enabled(s, st)
  {
    hide Inv;
    match st
    case ArriveC(t) => TakesInHand(p, s, t);
    case TakeP(x) => PartHasHome(p, s, x);
    case TakePC(x) => SumComesBack(p, s, x);
    case _ =>
  }

  /** A handler call uses up its message and no other. */
  ghost predicate UsesUp(s: State, s': State, st: Step) {
    !UnderWay(s', st) && forall other :: UnderWay(s, other) && other != st ==> UnderWay(s', other)
  }

  lemma ArrivalUsesUp(p: Problem, s: State, st: Step)
    requires Enabled(s, st) && (st.ArriveA? || st.ArriveB?)
    ensures UsesUp(s, Next(p, s, st), st)
  {
    hide AJobs, BJobs, AddBlock;
  }

  lemma TaskUsesUp(p: Problem, s: State, st: Step)
    requires Enabled(s, st) && (st.Multiply? || st.Add?) && s.flow.jobs[st.x] <= 1 && s.flow.pairs[st.x] <= 1
    ensures UsesUp(s, Next(p, s, st), st)
  {
    hide AddBlock;
  }

  lemma TakePUsesUp(p: Problem, s: State, x: Job)
    requires Enabled(s, TakeP(x)) && s.flow.parts[x] <= 1
    ensures UsesUp(s, Next(p, s, TakeP(x)), TakeP(x))
  {
    TakePMoves(p, s, x);
    hide ExecP, SendP, AddBlock;
  }

  /** What the sum state sends does not take a message away. */
  lemma SendCKeeps(s: State, d: SumData, c: Place, sent: Sent)
    ensures forall st :: UnderWay(s, st) ==> UnderWay(SendC(s, d, c, sent), st)
    ensures forall st :: UnderWay(SendC(s, d, c, sent), st) && !st.Add? ==> UnderWay(s, st)
  {
  }

  lemma ArriveCUsesUp(p: Problem, s: State, t: Place)
    requires Enabled(s, ArriveC(t))
    ensures UsesUp(s, Next(p, s, ArriveC(t)), ArriveC(t))
  {
    var (d, sent) := ExecC(s.sum, t);
    SendCKeeps(s.(wait := s.wait.(c := s.wait.c - {t})), d, t, sent);
    hide ExecC, SendC;
  }

  lemma TakePCUsesUp(p: Problem, s: State, x: Job)
    requires Enabled(s, TakePC(x)) && s.flow.summed[x] <= 1
    ensures UsesUp(s, Next(p, s, TakePC(x)), TakePC(x))
  {
    var (d, sent) := ExecPC(s.sum, x.Home());
    SendCKeeps(s.(flow := s.flow.(summed := s.flow.summed - multiset{x}), past := s.past.(done := s.past.done + {x})),
               d, x.Home(), sent);
    hide ExecPC, SendC;
  }

  lemma CallUsesUp(p: Problem, s: State, st: Step)
    requires Inv(p, s) && Enabled(s, st)
    ensures UsesUp(s, Next(p, s, st), st)
  {
    hide Inv, UsesUp, Enabled, Next;
    match st
    case ArriveA(_) => ArrivalUsesUp(p, s, st);
    case ArriveB(_) => ArrivalUsesUp(p, s, st);
    case ArriveC(t) => ArriveCUsesUp(p, s, t);
    case TakeP(x) => JobsAreUnique(p, s, x); TakePUsesUp(p, s, x);
    case TakePC(x) => JobsAreUnique(p, s, x); TakePCUsesUp(p, s, x);
    case _ => JobsAreUnique(p, s, st.x); TaskUsesUp(p, s, st);
  }

  // ----- the invariant ----------------------------------------------------------------------------------

  /** An operation that has not run is for work that is due, and that work is there. */
  ghost predicate OpInv(s: System, x: TM.OpId)
    requires x < |s.m.ops| == |s.work|
  {
    && s.m.ops[x].state == StateOf(s.work[x])
    && (s.m.ops[x].runs == 0 ==> s.work[x] in s.where && s.where[s.work[x]] == Pushed(x))
  }

  /** Work that is due is where it is said to be. */
  ghost predicate WorkInv(s: System, caller: Tid, w: Work)
    requires w in s.where && |s.m.ops| == |s.work|
  {
    match s.where[w]
    case InHand(t) => Executing(TM.PcOf(s.m, t)) || t == caller
    case Pushed(x) => x < |s.m.ops| && s.work[x] == w && s.m.ops[x].runs == 0
  }

  ghost predicate LinkInv(s: System, caller: Tid) {
    && |s.work| == |s.m.ops|
    && (forall w :: w in s.where <==> IsDue(s.prod, s.uncut, w))
    && (forall x: TM.OpId :: x < |s.m.ops| ==> OpInv(s, x))
    && (forall w :: w in s.where ==> WorkInv(s, caller, w))
  }

  ghost predicate JoinedInv(p: Problem, s: System, caller: Tid) {
    && TM.Inv(s.m) && Inv(p, s.prod) && MatrixInv(p, s.prod.c, s.prod.past.added) && LinkInv(s, caller)
  }

  lemma InitLinks(p: Problem, groups: set<TM.Gid>, workers: map<Tid, TM.Gid>, caller: Tid)
    ensures LinkInv(Init(p, groups, workers, caller), caller)
  {
    var s := Init(p, groups, workers, caller);
    forall w ensures w in s.where <==> IsDue(s.prod, s.uncut, w) {
      if w.Call? {
        assert IsCut(w.st, s.uncut) ==> !UnderWay(s.prod, w.st);
      }
    }
  }

  lemma InitJoined(p: Problem, groups: set<TM.Gid>, workers: map<Tid, TM.Gid>, caller: Tid)
    requires Covered(p)
    ensures JoinedInv(p, Init(p, groups, workers, caller), caller)
  {
    hide TM.Inv, Inv, MatrixInv, LinkInv, TM.Init, Start, Covered;
    TM.InitInv(groups, workers);
    StartInv(p);
    StartMatrix(p);
    InitLinks(p, groups, workers, caller);
  }

  // ----- the steps ----------------------------------------------------------------------------------------

  lemma PushLinks(s: System, m: TM.State, caller: Tid, t: Tid, g: TM.Gid, w: Work)
    requires LinkInv(s, caller) && w in s.where && Appends(s.m, m, t, g, StateOf(w)) && s.where[w] == InHand(t)
    ensures LinkInv(s.(m := m, work := s.work + [w], where := s.where[w := Pushed(|s.m.ops|)]), caller)
  {
    hide IsDue, StateOf;
    var s' := s.(m := m, work := s.work + [w], where := s.where[w := Pushed(|s.m.ops|)]);
    forall x: TM.OpId | x < |m.ops| ensures OpInv(s', x) {
      if x < |s.m.ops| { assert OpInv(s, x); }
    }
    forall v | v in s'.where ensures WorkInv(s', caller, v) {
      if v != w { assert WorkInv(s, caller, v); }
    }
  }

  /** A step that starts nothing, and ends an exec only with empty hands. */
  lemma QuietLinks(s: System, m: TM.State, caller: Tid, t: Tid)
    requires LinkInv(s, caller) && OneRun(s.m, m, None) && OthersWait(s.m, m, t)
    requires Executing(TM.PcOf(s.m, t)) && !Executing(TM.PcOf(m, t)) ==> EmptyHands(s, t)
    ensures LinkInv(s.(m := m), caller)
  {
    hide IsDue, StateOf;
    var s' := s.(m := m);
    forall x: TM.OpId | x < |m.ops| ensures OpInv(s', x) {
      assert OpInv(s, x);
    }
    forall v | v in s'.where ensures WorkInv(s', caller, v) {
      assert WorkInv(s, caller, v);
    }
  }

  /** What becomes of work `v` when thread `t` begins with work `w`. */
  ghost predicate Begun(s: System, s': System, t: Tid, w: Work, v: Work) {
    && (v in s'.where <==> IsDue(s'.prod, s'.uncut, v))
    && (v in s.where && v != w ==> v in s'.where && s'.where[v] == s.where[v])
    && (v in s'.where && (v !in s.where || v == w) ==> s'.where[v] == InHand(t))
    && w !in s'.where
  }

  lemma DueAfter(p: Problem, s: State, uncut: set<Kind>, w: Work, v: Work)
    requires Inv(p, s) && IsDue(s, uncut, w)
    ensures !IsDue(Advance(p, s, w), Uncut(uncut, w), w)
    ensures IsDue(s, uncut, v) && v != w ==> IsDue(Advance(p, s, w), Uncut(uncut, w), v)
  {
    if w.Call? {
      MessageIsEnabled(p, s, w.st);
      CallUsesUp(p, s, w.st);
    }
    hide Inv, Enabled, Next, UnderWay;
  }

  lemma BeginDue(p: Problem, s: System, m: TM.State, t: Tid, w: Work, v: Work)
    requires Inv(p, s.prod) && w in s.where && (forall v :: v in s.where <==> IsDue(s.prod, s.uncut, v))
    ensures Begun(s, Begin(p, s, m, t, w), t, w, v)
  {
    hide Inv, IsDue, Advance, Uncut, Due;
    DueAfter(p, s.prod, s.uncut, w, v);
  }

  lemma BegunOps(s: System, s': System, caller: Tid, t: Tid, x: TM.OpId, y: TM.OpId)
    requires LinkInv(s, caller) && x < |s.work| && y < |s.work| && OneRun(s.m, s'.m, Some(x)) && s'.work == s.work
    requires s.m.ops[x].runs == 0 && Begun(s, s', t, s.work[x], s.work[y])
    ensures OpInv(s', y)
  {
    assert OpInv(s, x) && OpInv(s, y);
    hide IsDue, StateOf;
  }

  lemma BegunWork(s: System, s': System, caller: Tid, t: Tid, x: TM.OpId, v: Work)
    requires LinkInv(s, caller) && x < |s.work| && OneRun(s.m, s'.m, Some(x)) && OthersWait(s.m, s'.m, t)
    requires s'.work == s.work && s.m.ops[x].runs == 0 && Executing(TM.PcOf(s'.m, t))
    requires Begun(s, s', t, s.work[x], v) && v in s'.where
    ensures WorkInv(s', caller, v)
  {
    assert OpInv(s, x);
    if v in s.where { assert WorkInv(s, caller, v); }
    hide IsDue, StateOf;
  }

  lemma BeginLinks(p: Problem, s: System, m: TM.State, caller: Tid, t: Tid, x: TM.OpId)
    requires Inv(p, s.prod) && LinkInv(s, caller) && OneRun(s.m, m, Some(x)) && OthersWait(s.m, m, t)
    requires x < |s.work| && s.m.ops[x].runs == 0 && Executing(TM.PcOf(m, t))
    ensures LinkInv(Begin(p, s, m, t, s.work[x]), caller)
  {
    hide IsDue, StateOf, Inv, Next, Enabled, WorkInv, OthersWait, Executing;
    assert OpInv(s, x);
    var s' := Begin(p, s, m, t, s.work[x]);
    forall v ensures Begun(s, s', t, s.work[x], v) {
      BeginDue(p, s, m, t, s.work[x], v);
    }
    BegunFits(s, s', caller, t, x);
  }

  lemma BegunFits(s: System, s': System, caller: Tid, t: Tid, x: TM.OpId)
    requires LinkInv(s, caller) && x < |s.work| && OneRun(s.m, s'.m, Some(x)) && OthersWait(s.m, s'.m, t)
    requires s'.work == s.work && s.m.ops[x].runs == 0 && Executing(TM.PcOf(s'.m, t))
    requires forall v :: Begun(s, s', t, s.work[x], v)
    ensures LinkInv(s', caller)
  {
    hide IsDue, StateOf, WorkInv, OpInv, OthersWait, Executing;
    forall y: TM.OpId | y < |s'.m.ops| ensures OpInv(s', y) {
      BegunOps(s, s', caller, t, x, y);
    }
    forall v | v in s'.where ensures WorkInv(s', caller, v) {
      BegunWork(s, s', caller, t, x, v);
    }
    forall v ensures v in s'.where <==> IsDue(s'.prod, s'.uncut, v) {
      assert Begun(s, s', t, s.work[x], v);
    }
  }

  /** An exec that starts is the first of its operation. */
  lemma StartsFirst(m: TM.State, m': TM.State, t: Tid, x: TM.OpId)
    requires TM.Inv(m') && OneRun(m, m', Some(x)) && Started(m, m', t) == Some(x)
    ensures x < |m.ops| && m.ops[x].runs == 0
  {
    assert TM.ThreadInv(m', t);
    assert TM.OpInv(m', x);
    hide TM.BagInv, TM.CountInv, TM.StateInv, TM.CacheInv;
  }

  lemma BeginKeeps(p: Problem, s: System, m: TM.State, t: Tid, w: Work)
    requires Cut(p) && Inv(p, s.prod) && MatrixInv(p, s.prod.c, s.prod.past.added)
    ensures var s' := Begin(p, s, m, t, w); Inv(p, s'.prod) && MatrixInv(p, s'.prod.c, s'.prod.past.added)
  {
    hide Cut, Inv, MatrixInv, Next, Enabled;
    if w.Call? && Enabled(s.prod, w.st) {
      NextKeepsInv(p, s.prod, w.st);
      NextKeepsMatrix(p, s.prod, w.st);
    }
  }

  lemma GoKeeps(p: Problem, s: System, caller: Tid, t: Tid, pick: nat, miss: Option<Tid>)
    requires Cut(p) && JoinedInv(p, s, caller)
    ensures JoinedInv(p, Move(p, s, t, Go(pick, miss)), caller)
  {
    hide Cut, Inv, MatrixInv, LinkInv, TM.Inv, TM.Next, Begin, EmptyHands, OneRun, OthersWait, Executing;
    var m := TM.Next(s.m, t, TM.Step(pick, miss));
    var x := Started(s.m, m, t);
    TM.NextKeepsInv(s.m, t, TM.Step(pick, miss));
    StepCounts(s.m, t, pick, miss);
    SameLength(s, caller);
    if x.Some? {
      StartsFirst(s.m, m, t, x.value);
      BeginLinks(p, s, m, caller, t, x.value);
      BeginKeeps(p, s, m, t, s.work[x.value]);
      BeginMoves(p, s, m, t, s.work[x.value]);
    } else if !(Executing(TM.PcOf(s.m, t)) && !Executing(TM.PcOf(m, t)) && !EmptyHands(s, t)) {
      QuietLinks(s, m, caller, t);
    }
  }

  lemma SameLength(s: System, caller: Tid)
    requires LinkInv(s, caller)
    ensures |s.work| == |s.m.ops|
  {
  }

  lemma BeginMoves(p: Problem, s: System, m: TM.State, t: Tid, w: Work)
    ensures Begin(p, s, m, t, w).m == m
  {
  }

  lemma PushKeeps(p: Problem, s: System, caller: Tid, t: Tid, w: Work, g: TM.Gid)
    requires JoinedInv(p, s, caller)
    ensures JoinedInv(p, Move(p, s, t, Push(w, g)), caller)
  {
    hide Inv, MatrixInv, LinkInv, TM.Inv, TM.Next, Appends, PushOf, StateOf;
    var m := TM.Next(s.m, t, PushOf(w, g));
    TM.NextKeepsInv(s.m, t, PushOf(w, g));
    if w in s.where && s.where[w] == InHand(t) && |m.ops| == |s.m.ops| + 1 {
      PushAppends(s.m, t, w, g);
      PushLinks(s, m, caller, t, g, w);
    }
  }

  lemma ShutdownKeeps(p: Problem, s: System, caller: Tid, t: Tid, a: Action)
    requires JoinedInv(p, s, caller) && (a.Close? || a.ReleaseAll?)
    ensures JoinedInv(p, Move(p, s, t, a), caller)
  {
    var b := if a.Close? then TM.Close(a.worker) else TM.ReleaseAll(a.g);
    TM.NextKeepsInv(s.m, t, b);
    ShutdownCounts(s.m, t, b);
    hide Inv, MatrixInv, LinkInv, TM.Inv, TM.Next, OneRun, EmptyHands;
    QuietLinks(s, TM.Next(s.m, t, b), caller, t);
  }

  /** Every step of the task manager and of the handlers it runs keeps the two together. */
  lemma MoveKeepsInv(p: Problem, s: System, caller: Tid, t: Tid, a: Action)
    requires Cut(p) && JoinedInv(p, s, caller)
    ensures JoinedInv(p, Move(p, s, t, a), caller)
  {
    hide Cut, JoinedInv, Move;
    match a
    case Push(w, g) => PushKeeps(p, s, caller, t, w, g);
    case Go(pick, miss) => GoKeeps(p, s, caller, t, pick, miss);
    case _ => ShutdownKeeps(p, s, caller, t, a);
  }

  lemma {:induction false} RunKeepsJoined(p: Problem, s: System, caller: Tid, t: seq<(Tid, Action)>)
    requires Cut(p) && JoinedInv(p, s, caller)
    ensures JoinedInv(p, Run(p, s, t), caller)
    decreases |t|
  {
    hide Cut, JoinedInv, Move;
    if t == [] {
    } else {
      MoveKeepsInv(p, s, caller, t[0].0, t[0].1);
      RunKeepsJoined(p, Move(p, s, t[0].0, t[0].1), caller, t[1..]);
    }
  }

  // ----- what it means ----------------------------------------------------------------------------------------

  /** Handlers that work on the same data: the tiles of A and B, or the sums in progress. */
  predicate ShareData(v: Step, w: Step) {
    || ((v.ArriveA? || v.ArriveB?) && (w.ArriveA? || w.ArriveB?))
    || ((v.ArriveC? || v.TakeP? || v.TakePC?) && (w.ArriveC? || w.TakeP? || w.TakePC?))
  }

  /** The execs of handlers that share data exclude each other, so that a handler call is one step of the product. */
  lemma HandlersExclude(p: Problem, s: System, caller: Tid, t: Tid, u: Tid)
    requires JoinedInv(p, s, caller) && Executing(TM.PcOf(s.m, t)) && Executing(TM.PcOf(s.m, u))
    ensures TM.PcOf(s.m, t).x < |s.work| && TM.PcOf(s.m, u).x < |s.work|
    ensures var v, w := s.work[TM.PcOf(s.m, t).x], s.work[TM.PcOf(s.m, u).x];
      v.Call? && w.Call? && ShareData(v.st, w.st) ==> t == u
  {
    ExecOf(s, caller, t);
    ExecOf(s, caller, u);
    if TM.PcOf(s.m, t).StateRun? && TM.PcOf(s.m, u).StateRun? && TM.PcOf(s.m, t).st == TM.PcOf(s.m, u).st {
      Managers.StateExecsExclude(s.m, TM.PcOf(s.m, t).st, t, u);
    }
    hide TM.Inv, LinkInv, Inv, MatrixInv;
  }

  lemma ExecOf(s: System, caller: Tid, t: Tid)
    requires TM.Inv(s.m) && LinkInv(s, caller) && Executing(TM.PcOf(s.m, t))
    ensures var pc := TM.PcOf(s.m, t);
      pc.x < |s.work| && (StateOf(s.work[pc.x]).Some? ==> pc.StateRun? && StateOf(s.work[pc.x]) == Some(pc.st))
  {
    var x := TM.PcOf(s.m, t).x;
    assert TM.ThreadInv(s.m, t);
    assert TM.OpInv(s.m, x) && OpInv(s, x);
    hide TM.BagInv, TM.CountInv, TM.StateInv, TM.CacheInv, StateOf, IsDue;
  }

  /** Work that is due keeps the counter from zero, unless the caller has still to push it. */
  lemma DueIsCounted(s: System, caller: Tid, w: Work)
    requires TM.Inv(s.m) && LinkInv(s, caller) && w in s.where
    ensures s.m.counter != 0 || !EmptyHands(s, caller)
  {
    if s.m.counter == 0 {
      TM.ZeroMeansQuiescent(s.m);
      assert WorkInv(s, caller, w);
    }
    hide TM.Inv, IsDue;
  }

  lemma NothingDueIsQuiet(s: System)
    requires forall w :: !IsDue(s.prod, s.uncut, w)
    ensures Quiet(s.prod)
  {
    forall k ensures k !in s.uncut {
      assert !IsDue(s.prod, s.uncut, Split(k));
    }
    forall st ensures !UnderWay(s.prod, st) {
      assert !IsDue(s.prod, s.uncut, Call(st));
    }
    NothingUnderWay(s.prod);
  }

  lemma NothingUnderWay(s: State)
    requires forall st :: !UnderWay(s, st)
    ensures Quiet(s)
  {
    forall t ensures t !in s.wait.a && t !in s.wait.b && t !in s.wait.c {
      assert !UnderWay(s, ArriveA(t)) && !UnderWay(s, ArriveB(t)) && !UnderWay(s, ArriveC(t));
    }
    forall x ensures x !in s.flow.jobs && x !in s.flow.parts && x !in s.flow.pairs && x !in s.flow.summed {
      assert !UnderWay(s, Multiply(x)) && !UnderWay(s, TakeP(x)) && !UnderWay(s, Add(x)) && !UnderWay(s, TakePC(x));
    }
    hide UnderWay;
  }

  /**
    When `tu_tm_wait_completion` returns to a caller that has pushed its three matrices, in every run,
    with any workers and groups, C is its initial value plus A * B, and every operation has run once.
   */
  lemma WaitMeansProduct(mats: Matrices, groups: set<TM.Gid>, workers: map<Tid, TM.Gid>, caller: Tid,
                         t: seq<(Tid, Action)>)
    requires var p := Direct(mats); var s := Run(p, Init(p, groups, workers, caller), t);
      s.m.counter == 0 && EmptyHands(s, caller)
    ensures var p := Direct(mats); var s := Run(p, Init(p, groups, workers, caller), t);
      && HasProduct(mats, s.prod.c) && s.prod.results == []
      && forall x: TM.OpId | x < |s.m.ops| :: s.m.ops[x].runs == 1
  {
    hide Cut, TM.Inv, Inv, MatrixInv, Init, Run, EmptyHands, HasProduct, Quiet, IsDue, Direct, Problem.Jobs;
    var p := Direct(mats);
    var s := Run(p, Init(p, groups, workers, caller), t);
    DirectMats(mats);
    InitJoined(p, groups, workers, caller);
    RunKeepsJoined(p, Init(p, groups, workers, caller), caller, t);
    TM.ZeroMeansQuiescent(s.m);
    forall w ensures !IsDue(s.prod, s.uncut, w) {
      if w in s.where { DueIsCounted(s, caller, w); }
    }
    NothingDueIsQuiet(s);
    QuietSendsTheResult(p, s.prod);
    ResultMeansDone(p, s.prod);
    AddedMeansProduct(p, s.prod.c, s.prod.past.added);
  }

  lemma DirectMats(m: Matrices)
    ensures Direct(m).mats == m
  {
  }
}
