/**
  The calls of the data-flow run time: whom a call reaches and in what order, what changes the
  semaphores, and what `tu_dfg_term` leaves behind.
 */
module DataFlowCalls {
  import opened Common
  import opened DataFlow
  import opened DataFlowData
  import opened DataFlowDrive

  // ----- a call from its start to its return ------------------------------------------------------

  /** The state after the first `k` steps of a run. */
  function Prefix(c: Config, s: State, t: seq<(Tid, Action)>, k: nat): (s': State)
    requires Fits(c, s) && k <= |t|
    ensures Fits(c, s')
  {
    Run(c, s, t[..k])
  }

  lemma OneMore(c: Config, s: State, t: seq<(Tid, Action)>, k: nat)
    requires Fits(c, s) && k < |t|
    ensures Prefix(c, s, t, k + 1) == Next(c, Prefix(c, s, t, k), t[k].0, t[k].1)
  {
    hide Next, WellFormed, PortsFit;
    var last: seq<(Tid, Action)> := [t[k]];
    assert t[..k + 1] == t[..k] + last && last[1..] == [];
    RunAppends(c, s, t[..k], last);
    var s1 := Next(c, Prefix(c, s, t, k), t[k].0, t[k].1);
    assert Run(c, s1, []) == s1;
  }

  /** Thread `p` begins a call of `tu_dfg_push_data`, or of `tu_result` from inside an exec. */
  predicate Begins(c: Config, s: State, p: Tid, a: Action)
    requires Fits(c, s)
  {
    || (a.Feed? && p !in c.team && PcOf(s, p).Outside? && a.t in c.inputs)
    || (a.Emit? && p in c.team && PcOf(s, p).Running? && AtNode(c, p, PcOf(s, p).i)
        && a.t in c.nodes[NodeAt(c, p, PcOf(s, p).i)].succ)
  }

  /** Whom the graph names as receivers: the input nodes of the type, or the node's successors. */
  function Named(c: Config, s: State, p: Tid, a: Action): set<nat>
    requires Fits(c, s) && Begins(c, s, p, a)
  {
    if a.Feed? then c.inputs[a.t] else c.nodes[NodeAt(c, p, PcOf(s, p).i)].succ[a.t]
  }

  /** Delivery `d` is the one that `p` is making, to the receivers `to` of data of type `t`. */
  ghost predicate Makes(s: State, p: Tid, d: nat, t: TypeId, to: set<nat>) {
    Delivers(PcOf(s, p)) && PcOf(s, p).d == d && IsFor(s, d, t, to)
  }

  ghost predicate IsFor(s: State, d: nat, t: TypeId, to: set<nat>) {
    d < |s.deliveries| && s.deliveries[d].typ == t && s.deliveries[d].to == to
  }

  lemma CallBegins(c: Config, s: State, p: Tid, a: Action)
    requires Fits(c, s) && Begins(c, s, p, a)
    ensures Makes(Next(c, s, p, a), p, |s.deliveries|, a.t, Named(c, s, p, a))
  {
    hide WellFormed, PortsFit, NodeAt;
  }

  lemma StaysFor(c: Config, s: State, q: Tid, a: Action, d: nat, t: TypeId, to: set<nat>)
    requires Fits(c, s) && IsFor(s, d, t, to)
    ensures IsFor(Next(c, s, q, a), d, t, to)
  {
    if a.Go? && q in c.team { GoDelivers(c, s, q); }
    hide WellFormed, PortsFit, NodeAt, WorkerGo;
  }

  lemma GoDelivers(c: Config, s: State, p: Tid)
    requires Fits(c, s) && p in c.team
    ensures WorkerGo(c, s, p).deliveries == s.deliveries
  {
    hide WellFormed, PortsFit, NodeAt;
  }

  /** The call goes on, or returns with every receiver served. */
  lemma CallGoesOn(c: Config, s: State, p: Tid, a: Action)
    requires Fits(c, s) && Delivers(PcOf(s, p))
    ensures var pc' := PcOf(Next(c, s, p, a), p);
      (Delivers(pc') && pc'.d == PcOf(s, p).d) || (a.Go? && !Delivers(pc') && Served(s, PcOf(s, p).d))
  {
    if a.Go? && p in c.team { SendGoesOn(c, s, p); }
    hide WellFormed, PortsFit, NodeAt, WorkerGo;
  }

  lemma SendGoesOn(c: Config, s: State, p: Tid)
    requires Fits(c, s) && Delivers(PcOf(s, p)) && p in c.team
    ensures var pc' := PcOf(WorkerGo(c, s, p), p);
      (Delivers(pc') && pc'.d == PcOf(s, p).d) || (!Delivers(pc') && Served(s, PcOf(s, p).d))
  {
    hide WellFormed, PortsFit, NodeAt;
  }

  lemma MakingGoesOn(c: Config, s: State, q: Tid, a: Action, p: Tid, d: nat, t: TypeId, to: set<nat>)
    requires Fits(c, s) && Makes(s, p, d, t, to)
    ensures var s' := Next(c, s, q, a);
      IsFor(s', d, t, to) && (Makes(s', p, d, t, to) || (Served(s', d) && !Delivers(PcOf(s', p))))
  {
    hide WellFormed, PortsFit, NodeAt, Next, Served;
    StaysFor(c, s, q, a, d, t, to);
    if q == p {
      CallGoesOn(c, s, p, a);
      if !Delivers(PcOf(Next(c, s, p, a), p)) { GoKeepsServed(c, s, p, d); }
    } else {
      NextStaysApart(c, s, q, a);
    }
  }

  lemma GoKeepsServed(c: Config, s: State, p: Tid, d: nat)
    requires Fits(c, s) && Served(s, d)
    ensures Served(Next(c, s, p, Go), d)
  {
    if p in c.team { GoDelivers(c, s, p); }
    hide WellFormed, PortsFit, NodeAt, WorkerGo;
  }

  lemma {:induction false} CallSoFar(c: Config, s: State, t: seq<(Tid, Action)>, p: Tid, i: nat, k: nat)
    requires Fits(c, s) && i < k <= |t| && t[i].0 == p && Begins(c, Prefix(c, s, t, i), p, t[i].1)
    requires forall j: nat :: i < j < k ==> Delivers(PcOf(Prefix(c, s, t, j), p))
    ensures
      var s0, s' := Prefix(c, s, t, i), Prefix(c, s, t, k);
      var d, to := |s0.deliveries|, Named(c, s0, p, t[i].1);
      IsFor(s', d, t[i].1.t, to) && (Makes(s', p, d, t[i].1.t, to) || (Served(s', d) && !Delivers(PcOf(s', p))))
    decreases k
  {
    hide Prefix, Next, WellFormed, PortsFit, Served, Makes, IsFor, Named;
    OneMore(c, s, t, k - 1);
    var s0, before := Prefix(c, s, t, i), Prefix(c, s, t, k - 1);
    if k - 1 == i {
      CallBegins(c, s0, p, t[i].1);
      MakesIsFor(Prefix(c, s, t, k), p, |s0.deliveries|, t[i].1.t, Named(c, s0, p, t[i].1));
    } else {
      CallSoFar(c, s, t, p, i, k - 1);
      MakingGoesOn(c, before, t[k - 1].0, t[k - 1].1, p, |s0.deliveries|, t[i].1.t, Named(c, s0, p, t[i].1));
    }
  }

  lemma MakesIsFor(s: State, p: Tid, d: nat, t: TypeId, to: set<nat>)
    requires Makes(s, p, d, t, to)
    ensures IsFor(s, d, t, to)
  {
  }

  /** How often delivery `d` was put into a queue. */
  function Copies(s: State, d: nat, port: Port): nat {
    if port in s.queues then multiset(s.queues[port].arrived)[d] else 0
  }

  lemma ServedIsEverywhere(c: Config, s: State, d: nat, t: TypeId, to: set<nat>, port: Port)
    requires Fits(c, s) && DataInv(c, s) && IsFor(s, d, t, to) && Served(s, d)
    ensures Copies(s, d, port) == if port.typ == t && port.node in to then 1 else 0
  {
    ServedMeansComplete(c, s, d);
    assert DeliveryInv(c, s, d);
    if port in s.queues {
      assert QueueInv(s, port);
      OccursOnce(s.queues[port].arrived, d);
    }
    hide WellFormed, HandInv;
  }

  /**
    Whoever calls, and whatever the other threads do meanwhile: when a call of `tu_dfg_push_data` or
    `tu_result` returns, each node that the graph names as a receiver of its type has got exactly one
    copy, no other queue has got any, and all these nodes have been notified.
   */
  lemma CallsReachTheirReceivers(c: Config, t: seq<(Tid, Action)>, p: Tid, i: nat, k: nat, port: Port)
    requires WellFormed(c) && i < k <= |t| && t[i].0 == p && Begins(c, Prefix(c, Init(c), t, i), p, t[i].1)
    requires forall j: nat :: i < j < k ==> Delivers(PcOf(Prefix(c, Init(c), t, j), p))
    requires !Delivers(PcOf(Prefix(c, Init(c), t, k), p))
    ensures
      var s0, s' := Prefix(c, Init(c), t, i), Prefix(c, Init(c), t, k);
      var d, to := |s0.deliveries|, Named(c, s0, p, t[i].1);
      && Copies(s', d, port) == (if port.typ == t[i].1.t && port.node in to then 1 else 0)
      && d < |s'.deliveries| && s'.deliveries[d].notified == to
  {
    hide Next, WellFormed, PortsFit, Named, Copies, Init, Run;
    CallSoFar(c, Init(c), t, p, i, k);
    RunInv(c, t[..k]);
    var s0, s' := Prefix(c, Init(c), t, i), Prefix(c, Init(c), t, k);
    ServedIsEverywhere(c, s', |s0.deliveries|, t[i].1.t, Named(c, s0, p, t[i].1), port);
  }

  // ----- the order within a call --------------------------------------------------------------------

  /** `tu_result` has pushed to all before it notifies one; `tu_dfg_push_data` is never ahead by more than one push. */
  ghost predicate InOrder(pc: Pc, e: Delivery)
    requires Delivers(pc)
  {
    if pc.Sending? then e.notified == {} || e.pushed == e.to
    else e.pushed == e.notified || exists x :: e.pushed == e.notified + {x}
  }

  /** Each call has its own delivery, and keeps the order. */
  ghost predicate OrderInv(s: State, p: Tid) {
    var pc := PcOf(s, p);
    Delivers(pc) ==>
      && pc.d < |s.deliveries| && InOrder(pc, s.deliveries[pc.d])
      && forall q: Tid :: q != p && Delivers(PcOf(s, q)) ==> PcOf(s, q).d != pc.d
  }

  /** Whose delivery a step changes, and which one a call begins. */
  ghost predicate OwnDelivery(s: State, s': State, q: Tid) {
    var pc, pc' := PcOf(s, q), PcOf(s', q);
    && |s.deliveries| <= |s'.deliveries|
    && (forall d: nat :: d < |s.deliveries| && !(Delivers(pc) && pc.d == d) ==> s'.deliveries[d] == s.deliveries[d])
    && (Delivers(pc') ==> if Delivers(pc) then pc'.d == pc.d && pc'.Sending? == pc.Sending?
                          else pc'.d == |s.deliveries| < |s'.deliveries| && s'.deliveries[pc'.d].pushed == {}
                               && s'.deliveries[pc'.d].notified == {})
  }

  lemma GoIsOwn(c: Config, s: State, q: Tid)
    requires Fits(c, s) && q in c.team
    ensures OwnDelivery(s, WorkerGo(c, s, q), q)
  {
    hide WellFormed, PortsFit, NodeAt;
  }

  lemma NextIsOwn(c: Config, s: State, q: Tid, a: Action)
    requires Fits(c, s)
    ensures OwnDelivery(s, Next(c, s, q, a), q)
  {
    if a.Go? && q in c.team { GoIsOwn(c, s, q); }
    hide WellFormed, PortsFit, NodeAt, WorkerGo;
  }

  lemma StaysInOrder(c: Config, s: State, p: Tid, a: Action)
    requires Fits(c, s) && Delivers(PcOf(s, p)) && PcOf(s, p).d < |s.deliveries|
    requires InOrder(PcOf(s, p), s.deliveries[PcOf(s, p).d])
    requires Delivers(PcOf(Next(c, s, p, a), p)) && PcOf(Next(c, s, p, a), p).d == PcOf(s, p).d
    requires PcOf(Next(c, s, p, a), p).Sending? == PcOf(s, p).Sending?
    ensures PcOf(s, p).d < |Next(c, s, p, a).deliveries|
    ensures InOrder(PcOf(Next(c, s, p, a), p), Next(c, s, p, a).deliveries[PcOf(s, p).d])
  {
    var e, s' := s.deliveries[PcOf(s, p).d], Next(c, s, p, a);
    if a.Go? && p in c.team { GoDelivers(c, s, p); }
    hide WellFormed, PortsFit, NodeAt, WorkerGo;
    if a.PushTo? && PcOf(s, p).Feeding? && e.pushed == e.notified {
      assert s'.deliveries[PcOf(s, p).d].pushed == e.pushed || s'.deliveries[PcOf(s, p).d].pushed == e.notified + {a.x};
    } else if a.Notify? && PcOf(s, p).Feeding? && e.pushed != e.notified {
      var x :| e.pushed == e.notified + {x};
      assert s'.deliveries[PcOf(s, p).d].notified == e.notified || s'.deliveries[PcOf(s, p).d].notified == e.pushed;
    }
  }

  lemma NextKeepsOrder(c: Config, s: State, q: Tid, a: Action)
    requires Fits(c, s) && forall p: Tid :: OrderInv(s, p)
    ensures forall p: Tid :: OrderInv(Next(c, s, q, a), p)
  {
    hide Next, WellFormed, PortsFit, OrderInv, OwnDelivery;
    var s' := Next(c, s, q, a);
    NextStaysApart(c, s, q, a);
    NextIsOwn(c, s, q, a);
    forall p: Tid ensures OrderInv(s', p) {
      if p == q { OwnOrder(c, s, q, a); } else { OtherOrder(s, s', q, p); }
    }
  }

  lemma OtherOrder(s: State, s': State, q: Tid, p: Tid)
    requires OrderInv(s, p) && OrderInv(s, q) && OwnDelivery(s, s', q) && OthersStay(s, s', q) && p != q
    ensures OrderInv(s', p)
  {
    hide InOrder;
  }

  lemma OwnOrder(c: Config, s: State, q: Tid, a: Action)
    requires Fits(c, s) && OwnDelivery(s, Next(c, s, q, a), q) && OthersStay(s, Next(c, s, q, a), q)
    requires forall p: Tid :: OrderInv(s, p)
    ensures OrderInv(Next(c, s, q, a), q)
  {
    hide Next, WellFormed, PortsFit, InOrder;
    assert OrderInv(s, q);
    var s' := Next(c, s, q, a);
    if Delivers(PcOf(s', q)) {
      if Delivers(PcOf(s, q)) {
        StaysInOrder(c, s, q, a);
      } else {
        NewIsInOrder(PcOf(s', q), s'.deliveries[PcOf(s', q).d]);
      }
      forall p: Tid | p != q && Delivers(PcOf(s', p)) ensures PcOf(s', p).d != PcOf(s', q).d {
        assert OrderInv(s, p);
      }
    }
  }

  lemma NewIsInOrder(pc: Pc, e: Delivery)
    requires Delivers(pc) && e.pushed == {} && e.notified == {}
    ensures InOrder(pc, e)
  {
  }

  lemma {:induction false} RunKeepsOrder(c: Config, s: State, t: seq<(Tid, Action)>)
    requires Fits(c, s) && forall p: Tid :: OrderInv(s, p)
    ensures forall p: Tid :: OrderInv(Run(c, s, t), p)
    decreases |t|
  {
    hide Next, WellFormed, PortsFit, OrderInv;
    if t == [] {
    } else {
      NextKeepsOrder(c, s, t[0].0, t[0].1);
      RunKeepsOrder(c, Next(c, s, t[0].0, t[0].1), t[1..]);
    }
  }

  lemma InitInOrder(c: Config)
    requires WellFormed(c)
    ensures forall p: Tid :: OrderInv(Init(c), p)
  {
  }

  /** In every run each call has its own delivery, and pushes and notifies in the order of the program. */
  lemma CallsKeepOrder(c: Config, t: seq<(Tid, Action)>, p: Tid)
    requires WellFormed(c) && Delivers(PcOf(Run(c, Init(c), t), p))
    ensures var s := Run(c, Init(c), t); var pc := PcOf(s, p);
      && pc.d < |s.deliveries| && InOrder(pc, s.deliveries[pc.d])
      && forall q: Tid :: q != p && Delivers(PcOf(s, q)) ==> PcOf(s, q).d != pc.d
  {
    hide WellFormed, Init, Run, InOrder;
    InitInOrder(c);
    RunKeepsOrder(c, Init(c), t);
    assert OrderInv(Run(c, Init(c), t), p);
  }

  // ----- permits -----------------------------------------------------------------------------------

  /** The step of `p` notifies node `x`. */
  predicate Notifies(s: State, s': State, p: Tid, a: Action, x: nat) {
    && a == Notify(x) && Delivers(PcOf(s, p)) && PcOf(s, p).d < |s.deliveries| <= |s'.deliveries|
    && x !in s.deliveries[PcOf(s, p).d].notified && x in s'.deliveries[PcOf(s, p).d].notified
  }

  ghost predicate PermitStep(c: Config, s: State, s': State, p: Tid, a: Action, g: nat)
    requires Fits(c, s) && Fits(c, s') && g < |c.groups|
  {
    var pc, pc' := PcOf(s, p), PcOf(s', p);
    s'.permits[g] == s.permits[g]
      + (if a.Notify? && a.x < |c.nodes| && c.nodes[a.x].group == g && Notifies(s, s', p, a, a.x) then 1 else 0)
      + (if g in s'.released && g !in s.released then |Workers(c, g)| else 0)
      - (if pc.Parked? && pc'.Woken? && p in c.team && c.team[p] == g then 1 else 0)
  }

  lemma GoPermits(c: Config, s: State, p: Tid, g: nat)
    requires Fits(c, s) && p in c.team && g < |c.groups|
    ensures PermitStep(c, s, WorkerGo(c, s, p), p, Go, g)
    ensures PcOf(s, p).Parked? ==> WorkerGo(c, s, p) == s || PcOf(WorkerGo(c, s, p), p).Woken?
  {
    hide WellFormed, PortsFit, NodeAt;
  }

  /**
    A worker that wakes has taken one permit of its group; a notification gives one to the receiver's
    group, the shutdown one for each worker; nothing else changes a semaphore.
   */
  lemma PermitsChange(c: Config, s: State, p: Tid, a: Action, g: nat)
    requires Fits(c, s) && g < |c.groups|
    ensures PermitStep(c, s, Next(c, s, p, a), p, a, g)
  {
    if a.Go? && p in c.team { GoPermits(c, s, p, g); }
    hide WellFormed, PortsFit, NodeAt, WorkerGo;
  }

  // ----- shutdown ------------------------------------------------------------------------------------

  /** Woken, and so about to read its flag, or gone. */
  predicate Reads(pc: Pc) { pc.Woken? || pc.Stopped? }

  /** The workers of the group that have still to wake in order to stop. */
  function Unstopped(c: Config, s: State, g: nat): set<Tid> { set w | w in Workers(c, g) && !Reads(PcOf(s, w)) }

  /** `tu_dfg_term` has come past group `g`: its flags are up, and no worker of it waits for a permit in vain. */
  ghost predicate ShutDown(c: Config, s: State, g: nat)
    requires Fits(c, s)
  {
    g < |c.groups| && Workers(c, g) <= s.closing && s.permits[g] >= |Unstopped(c, s, g)|
  }

  /** How a step moves a worker, as far as stopping goes. */
  ghost predicate StopStep(c: Config, s: State, s': State, p: Tid) {
    var pc, pc' := PcOf(s, p), PcOf(s', p);
    && s.closing <= s'.closing && s.released <= s'.released
    && (pc.Parked? ==> pc' == pc || pc'.Woken?) && (pc'.Woken? ==> pc == pc' || pc.Parked?)
    && (Reads(pc) && p in s.closing ==> Reads(pc'))
    && (pc'.Stopped? ==> pc == pc' || (pc.Woken? && p in s.closing))
  }

  lemma GoStops(c: Config, s: State, p: Tid)
    requires Fits(c, s) && p in c.team
    ensures StopStep(c, s, WorkerGo(c, s, p), p)
  {
    hide WellFormed, PortsFit, NodeAt;
  }

  lemma NextStops(c: Config, s: State, p: Tid, a: Action)
    requires Fits(c, s)
    ensures StopStep(c, s, Next(c, s, p, a), p)
  {
    if a.Go? && p in c.team { GoStops(c, s, p); }
    hide WellFormed, PortsFit, NodeAt, WorkerGo;
  }

  lemma FewerUnstopped(c: Config, s: State, s': State, p: Tid, g: nat)
    requires OthersStay(s, s', p) && StopStep(c, s, s', p) && Workers(c, g) <= s.closing
    ensures |Unstopped(c, s', g)| <=
      |Unstopped(c, s, g)| - if PcOf(s, p).Parked? && PcOf(s', p).Woken? && p in Workers(c, g) then 1 else 0
  {
    var a, b := Unstopped(c, s, g), Unstopped(c, s', g);
    if PcOf(s, p).Parked? && PcOf(s', p).Woken? && p in Workers(c, g) {
      assert b == a - {p} && p in a;
    } else {
      assert b <= a;
      SubsetSize(b, a);
    }
  }

  lemma StaysShutDown(c: Config, s: State, p: Tid, a: Action, g: nat)
    requires Fits(c, s) && ShutDown(c, s, g)
    ensures ShutDown(c, Next(c, s, p, a), g)
  {
    hide Next, WellFormed, PortsFit, Unstopped;
    PermitsChange(c, s, p, a, g);
    NextStaysApart(c, s, p, a);
    NextStops(c, s, p, a);
    FewerUnstopped(c, s, Next(c, s, p, a), p, g);
  }

  /** The step in which `tu_dfg_term` releases the permits of group `g`. */
  lemma ReleaseShutsDown(c: Config, s: State, p: Tid, g: nat)
    requires Fits(c, s) && g !in s.released && g in Next(c, s, p, Release(g)).released
    ensures ShutDown(c, Next(c, s, p, Release(g)), g)
  {
    var s' := Next(c, s, p, Release(g));
    SubsetSize(Unstopped(c, s', g), Workers(c, g));
    hide WellFormed, PortsFit;
  }

  ghost predicate ReleasedInv(c: Config, s: State)
    requires Fits(c, s)
  {
    forall g: nat :: g in s.released ==> ShutDown(c, s, g)
  }

  lemma OnlyRelease(c: Config, s: State, p: Tid, a: Action, g: nat)
    requires Fits(c, s) && g !in s.released && g in Next(c, s, p, a).released
    ensures a == Release(g)
  {
    if a.Go? && p in c.team { GoReleasesNone(c, s, p); }
    hide WellFormed, PortsFit, NodeAt, WorkerGo;
  }

  lemma GoReleasesNone(c: Config, s: State, p: Tid)
    requires Fits(c, s) && p in c.team
    ensures WorkerGo(c, s, p).released == s.released && WorkerGo(c, s, p).closing == s.closing
  {
    hide WellFormed, PortsFit, NodeAt;
  }

  lemma NextKeepsReleased(c: Config, s: State, p: Tid, a: Action)
    requires Fits(c, s) && ReleasedInv(c, s)
    ensures ReleasedInv(c, Next(c, s, p, a))
  {
    hide Next, WellFormed, PortsFit, ShutDown;
    forall g: nat | g in Next(c, s, p, a).released ensures ShutDown(c, Next(c, s, p, a), g) {
      if g in s.released {
        StaysShutDown(c, s, p, a, g);
      } else {
        OnlyRelease(c, s, p, a, g);
        ReleaseShutsDown(c, s, p, g);
      }
    }
  }

  lemma {:induction false} RunKeepsReleased(c: Config, s: State, t: seq<(Tid, Action)>)
    requires Fits(c, s) && ReleasedInv(c, s)
    ensures ReleasedInv(c, Run(c, s, t))
    decreases |t|
  {
    hide Next, WellFormed, PortsFit, ReleasedInv;
    if t == [] {
    } else {
      NextKeepsReleased(c, s, t[0].0, t[0].1);
      RunKeepsReleased(c, Next(c, s, t[0].0, t[0].1), t[1..]);
    }
  }

  /** `tu_dfg_term` for one group up to its joins: the flags of the workers `ws`, then the permits. */
  function Term(p: Tid, ws: seq<Tid>, g: nat): seq<(Tid, Action)> {
    if ws == [] then [(p, Release(g))] else [(p, Raise(ws[0]))] + Term(p, ws[1..], g)
  }

  /** A `tu_dfg_term` that raises the flag of each worker of a group shuts the group down. */
  lemma {:induction false} TermShutsDown(c: Config, s: State, p: Tid, ws: seq<Tid>, g: nat)
    requires Fits(c, s) && ReleasedInv(c, s) && p !in c.team && PcOf(s, p).Outside? && g < |c.groups|
    requires forall w :: w in ws ==> w in c.team
    requires forall w :: w in Workers(c, g) ==> w in ws || w in s.closing
    ensures ShutDown(c, Run(c, s, Term(p, ws, g)), g)
    decreases |ws|
  {
    hide WellFormed, PortsFit, ShutDown;
    var s1 := Next(c, s, p, if ws == [] then Release(g) else Raise(ws[0]));
    NextKeepsReleased(c, s, p, if ws == [] then Release(g) else Raise(ws[0]));
    if ws == [] {
      assert Run(c, s1, []) == s1 && g in s1.released;
    } else {
      assert forall w :: w in ws <==> w == ws[0] || w in ws[1..];
      TermShutsDown(c, s1, p, ws[1..], g);
    }
  }
}
