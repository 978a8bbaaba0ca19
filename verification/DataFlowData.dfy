/** Conservation of data in the data-flow run time: one copy to each receiver, executed once. */
module DataFlowData {
  import opened Common
  import opened DataFlow

  /** Worker `p` has the `k`-th datum of a queue in hand. */
  predicate Holds(pc: Pc, port: Port, k: nat) {
    (pc.Running? || pc.Sending?) && pc.port == port && pc.k == k
  }

  /** Delivery `d` was pushed to the queue. */
  predicate Went(s: State, d: nat, port: Port) {
    d < |s.deliveries| && s.deliveries[d].typ == port.typ && port.node in s.deliveries[d].pushed
  }

  /** What was pushed and not popped is queued, in order; what was popped and not done is in hand. */
  ghost predicate QueueInv(s: State, port: Port)
    requires port in s.queues
  {
    var q := s.queues[port];
    && |q.fates| <= |q.arrived| && q.items == q.arrived[|q.fates|..]
    && Distinct(q.arrived)
    && (forall d: nat :: d in q.arrived <==> Went(s, d, port))
    && (forall k: nat :: k < |q.fates| && q.fates[k].Taken? ==> Holds(PcOf(s, q.fates[k].w), port, k))
  }

  ghost predicate DeliveryInv(c: Config, s: State, d: nat)
    requires d < |s.deliveries|
  {
    var e := s.deliveries[d];
    e.notified <= e.pushed <= e.to && Receivers(c, e.to, e.typ)
  }

  ghost predicate HandInv(s: State, p: Tid) {
    var pc := PcOf(s, p);
    && (pc.Running? || pc.Sending? ==>
          pc.port in s.queues && pc.k < |s.queues[pc.port].fates| && s.queues[pc.port].fates[pc.k] == Taken(p))
    && (Delivers(pc) ==> pc.d < |s.deliveries|)
  }

  ghost predicate DataInv(c: Config, s: State) {
    && (forall port :: port in s.queues ==> QueueInv(s, port))
    && (forall d: nat :: d < |s.deliveries| ==> DeliveryInv(c, s, d))
    && (forall p: Tid :: HandInv(s, p))
  }

  lemma InitData(c: Config)
    requires WellFormed(c)
    ensures DataInv(c, Init(c))
  {
  }

  // ----- steps that leave queues alone ------------------------------------------------------------

  ghost predicate SameHand(pc: Pc, pc': Pc) {
    && (pc.Running? || pc.Sending?) == (pc'.Running? || pc'.Sending?)
    && (pc.Running? || pc.Sending? ==> pc'.port == pc.port && pc'.k == pc.k)
  }

  /** Deliveries only begin or notify. */
  ghost predicate QuietDeliveries(c: Config, s: seq<Delivery>, s': seq<Delivery>) {
    && |s| <= |s'|
    && (forall d: nat :: d < |s| ==>
          s'[d] == s[d].(notified := s'[d].notified) && s'[d].notified <= s[d].pushed + s[d].notified)
    && (forall d: nat :: |s| <= d < |s'| ==>
          s'[d].pushed == {} && s'[d].notified == {} && Receivers(c, s'[d].to, s'[d].typ))
  }

  /** Thread `p` moves on with the datum it has in hand, if any; deliveries may begin or notify. */
  ghost predicate IsQuiet(c: Config, s: State, s': State, p: Tid) {
    && s'.queues == s.queues && OthersStay(s, s', p) && SameHand(PcOf(s, p), PcOf(s', p))
    && (Delivers(PcOf(s', p)) ==> PcOf(s', p).d < |s'.deliveries|)
    && QuietDeliveries(c, s.deliveries, s'.deliveries)
  }

  lemma QuietKeepsQueue(c: Config, s: State, s': State, p: Tid, port: Port)
    requires IsQuiet(c, s, s', p) && port in s.queues && QueueInv(s, port)
    ensures QueueInv(s', port)
  {
    forall d: nat ensures Went(s', d, port) <==> Went(s, d, port) {
    }
    hide Receivers;
  }

  lemma QuietKeepsData(c: Config, s: State, s': State, p: Tid)
    requires DataInv(c, s) && IsQuiet(c, s, s', p)
    ensures DataInv(c, s')
  {
    hide QueueInv;
    forall port | port in s'.queues ensures QueueInv(s', port) {
      QuietKeepsQueue(c, s, s', p, port);
    }
    forall d: nat | d < |s'.deliveries| ensures DeliveryInv(c, s', d) {
      assert d < |s.deliveries| ==> DeliveryInv(c, s, d);
    }
    forall q: Tid ensures HandInv(s', q) {
      assert HandInv(s, q);
    }
  }

  // ----- a push ---------------------------------------------------------------------------------------

  /** What a push does, if it does anything. */
  ghost predicate IsPush(s: State, s': State, d: nat, x: nat) {
    && d < |s.deliveries| && x in s.deliveries[d].to && x !in s.deliveries[d].pushed
    && s'.pcs == s.pcs && s'.deliveries == s.deliveries[d := s.deliveries[d].(pushed := s.deliveries[d].pushed + {x})]
    && var port := Port(x, s.deliveries[d].typ);
    && port in s.queues
    && var q := s.queues[port];
    s'.queues == s.queues[port := q.(items := q.items + [d], arrived := q.arrived + [d])]
  }

  lemma PushStepIsPush(c: Config, s: State, p: Tid, x: nat)
    requires Fits(c, s)
    ensures var s' := Next(c, s, p, PushTo(x)); s' == s || (Delivers(PcOf(s, p)) && IsPush(s, s', PcOf(s, p).d, x))
  {
    hide WellFormed, PortsFit;
  }

  lemma PushKeepsQueue(s: State, s': State, d: nat, x: nat, port: Port)
    requires IsPush(s, s', d, x) && port in s.queues && QueueInv(s, port)
    ensures QueueInv(s', port)
  {
    var q, q' := s.queues[port], s'.queues[port];
    assert d in q.arrived <==> Went(s, d, port);
    forall e: nat ensures e in q'.arrived <==> Went(s', e, port) {
      assert e in q.arrived <==> Went(s, e, port);
    }
  }

  lemma PushKeepsData(c: Config, s: State, s': State, d: nat, x: nat)
    requires DataInv(c, s) && IsPush(s, s', d, x)
    ensures DataInv(c, s')
  {
    hide QueueInv;
    forall port | port in s'.queues ensures QueueInv(s', port) {
      PushKeepsQueue(s, s', d, x, port);
    }
    forall e: nat | e < |s'.deliveries| ensures DeliveryInv(c, s', e) {
      assert DeliveryInv(c, s, e);
    }
    forall q: Tid ensures HandInv(s', q) {
      assert HandInv(s, q);
    }
  }

  // ----- a pop ----------------------------------------------------------------------------------------

  /** Worker `p`, with nothing in hand, pops the first datum of `port`. */
  ghost predicate IsPop(s: State, s': State, p: Tid, port: Port) {
    && port in s.queues && s.queues[port].items != [] && OthersStay(s, s', p) && s'.deliveries == s.deliveries
    && var q := s.queues[port];
    && s'.queues == s.queues[port := q.(items := q.items[1..], fates := q.fates + [Taken(p)])]
    && PcOf(s, p).Looking? && PcOf(s', p).Running? && Holds(PcOf(s', p), port, |q.fates|)
  }

  lemma PopKeepsQueue(s: State, s': State, p: Tid, port: Port, other: Port)
    requires IsPop(s, s', p, port) && other in s.queues && QueueInv(s, other)
    ensures QueueInv(s', other)
  {
    forall e: nat ensures Went(s', e, other) <==> Went(s, e, other) {
    }
    forall k: nat | k < |s.queues[other].fates| && s.queues[other].fates[k].Taken?
      ensures Holds(PcOf(s', s.queues[other].fates[k].w), other, k)
    {
      assert Holds(PcOf(s, s.queues[other].fates[k].w), other, k);
    }
  }

  lemma PopKeepsData(c: Config, s: State, s': State, p: Tid, port: Port)
    requires DataInv(c, s) && IsPop(s, s', p, port)
    ensures DataInv(c, s')
  {
    hide QueueInv;
    forall other | other in s'.queues ensures QueueInv(s', other) {
      PopKeepsQueue(s, s', p, port, other);
    }
    forall e: nat | e < |s'.deliveries| ensures DeliveryInv(c, s', e) {
      assert DeliveryInv(c, s, e);
    }
    forall q: Tid ensures HandInv(s', q) {
      assert HandInv(s, q);
    }
  }

  // ----- the exec function returns ------------------------------------------------------------------------

  /** Worker `p` is done with the `k`-th datum of `port`. */
  ghost predicate IsReturn(s: State, s': State, p: Tid, port: Port, k: nat) {
    && OthersStay(s, s', p) && s'.deliveries == s.deliveries
    && Holds(PcOf(s, p), port, k) && !PcOf(s', p).Running? && !Delivers(PcOf(s', p))
    && port in s.queues && k < |s.queues[port].fates|
    && s'.queues == s.queues[port := s.queues[port].(fates := s.queues[port].fates[k := Done])]
  }

  lemma ReturnKeepsQueue(s: State, s': State, p: Tid, port: Port, k: nat, other: Port)
    requires IsReturn(s, s', p, port, k) && other in s.queues && QueueInv(s, other)
    ensures QueueInv(s', other)
  {
    forall e: nat ensures Went(s', e, other) <==> Went(s, e, other) {
    }
    forall i: nat | i < |s'.queues[other].fates| && s'.queues[other].fates[i].Taken?
      ensures Holds(PcOf(s', s'.queues[other].fates[i].w), other, i)
    {
      assert Holds(PcOf(s, s.queues[other].fates[i].w), other, i);
    }
  }

  lemma ReturnKeepsData(c: Config, s: State, s': State, p: Tid, port: Port, k: nat)
    requires DataInv(c, s) && IsReturn(s, s', p, port, k)
    ensures DataInv(c, s')
  {
    assert HandInv(s, p);
    hide QueueInv;
    forall other | other in s'.queues ensures QueueInv(s', other) {
      ReturnKeepsQueue(s, s', p, port, k, other);
    }
    forall e: nat | e < |s'.deliveries| ensures DeliveryInv(c, s', e) {
      assert DeliveryInv(c, s, e);
    }
    forall q: Tid ensures HandInv(s', q) {
      assert HandInv(s, q);
    }
  }

  // ----- every step -------------------------------------------------------------------------------------------

  lemma ReturnIsReturn(c: Config, s: State, p: Tid)
    requires Fits(c, s) && p in c.team && PlaceInv(c, s, p) && HandInv(s, p) && PcOf(s, p).Running?
    ensures IsReturn(s, WorkerGo(c, s, p), p, PcOf(s, p).port, PcOf(s, p).k)
  {
    hide WellFormed, PortsFit, NodeAt;
  }

  lemma GateGoIsQuiet(c: Config, s: State, p: Tid)
    requires Fits(c, s) && p in c.team && MovesGates(PcOf(s, p)) && !PcOf(s, p).Running?
    requires OthersStay(s, WorkerGo(c, s, p), p)
    ensures IsQuiet(c, s, WorkerGo(c, s, p), p)
  {
    hide WellFormed, PortsFit, NodeAt, OthersStay, Receivers;
  }

  lemma OtherGoIsQuiet(c: Config, s: State, p: Tid)
    requires Fits(c, s) && p in c.team && HandInv(s, p) && !MovesGates(PcOf(s, p))
    requires OthersStay(s, WorkerGo(c, s, p), p)
    ensures IsQuiet(c, s, WorkerGo(c, s, p), p)
  {
    hide WellFormed, PortsFit, NodeAt, OthersStay, Receivers;
  }

  lemma GoIsQuiet(c: Config, s: State, p: Tid)
    requires Fits(c, s) && p in c.team && HandInv(s, p) && !PcOf(s, p).Running?
    ensures IsQuiet(c, s, WorkerGo(c, s, p), p)
  {
    GoStaysApart(c, s, p);
    if MovesGates(PcOf(s, p)) { GateGoIsQuiet(c, s, p); } else { OtherGoIsQuiet(c, s, p); }
    hide *;
  }

  lemma CallIsQuiet(c: Config, s: State, p: Tid, a: Action)
    requires Fits(c, s) && HandInv(s, p) && (a.Emit? || a.Feed?)
    requires OthersStay(s, Next(c, s, p, a), p)
    ensures IsQuiet(c, s, Next(c, s, p, a), p)
  {
    hide PortsFit, NodeAt, OthersStay, Receivers;
  }

  lemma NotifyIsQuiet(c: Config, s: State, p: Tid, a: Action)
    requires Fits(c, s) && HandInv(s, p) && (a.Notify? || a.Raise? || a.Release? || (a.Go? && p !in c.team))
    requires OthersStay(s, Next(c, s, p, a), p)
    ensures IsQuiet(c, s, Next(c, s, p, a), p)
  {
    hide WellFormed, PortsFit, NodeAt, OthersStay, Receivers;
  }

  lemma LookIsPop(c: Config, s: State, p: Tid, t: TypeId)
    requires Fits(c, s) && HandInv(s, p)
    ensures var s' := Next(c, s, p, Look(t));
      IsQuiet(c, s, s', p) || (PcOf(s', p).Running? && IsPop(s, s', p, PcOf(s', p).port))
  {
    NextStaysApart(c, s, p, Look(t));
    hide WellFormed, PortsFit, NodeAt, OthersStay, Receivers;
  }

  lemma NextKeepsData(c: Config, s: State, p: Tid, a: Action)
    requires Fits(c, s) && GatesInv(c, s) && DataInv(c, s)
    ensures DataInv(c, Next(c, s, p, a))
  {
    assert HandInv(s, p) && PlaceInv(c, s, p);
    var s' := Next(c, s, p, a);
    hide WellFormed, PortsFit, IsQuiet, IsPop, IsPush, IsReturn, DataInv, HandInv, WorkerGo, OthersStay;
    match a {
      case Look(t) =>
        LookIsPop(c, s, p, t);
        if IsQuiet(c, s, s', p) { QuietKeepsData(c, s, s', p); } else { PopKeepsData(c, s, s', p, PcOf(s', p).port); }
      case PushTo(x) =>
        PushStepIsPush(c, s, p, x);
        if s' != s { PushKeepsData(c, s, s', PcOf(s, p).d, x); }
      case _ =>
    }
    if a.Go? && p in c.team && PcOf(s, p).Running? {
      ReturnIsReturn(c, s, p);
      ReturnKeepsData(c, s, s', p, PcOf(s, p).port, PcOf(s, p).k);
    } else if a.Go? && p in c.team {
      GoIsQuiet(c, s, p);
      QuietKeepsData(c, s, s', p);
    } else if !a.Look? && !a.PushTo? {
      NextStaysApart(c, s, p, a);
      if a.Emit? || a.Feed? { CallIsQuiet(c, s, p, a); } else { NotifyIsQuiet(c, s, p, a); }
      QuietKeepsData(c, s, s', p);
    }
  }

  lemma {:induction false} RunKeepsData(c: Config, s: State, schedule: seq<(Tid, Action)>)
    requires Fits(c, s) && GatesInv(c, s) && DataInv(c, s)
    ensures DataInv(c, Run(c, s, schedule))
    decreases |schedule|
  {
    hide WellFormed, PortsFit, GatesInv, DataInv, Next;
    if schedule == [] {
    } else {
      NextKeepsGates(c, s, schedule[0].0, schedule[0].1);
      NextKeepsData(c, s, schedule[0].0, schedule[0].1);
      RunKeepsData(c, Next(c, s, schedule[0].0, schedule[0].1), schedule[1..]);
    }
  }

  // ----- what runs promise ----------------------------------------------------------------------------------------

  lemma RunInv(c: Config, schedule: seq<(Tid, Action)>)
    requires WellFormed(c)
    ensures GatesInv(c, Run(c, Init(c), schedule)) && DataInv(c, Run(c, Init(c), schedule))
  {
    hide *;
    InitGates(c);
    InitData(c);
    RunKeepsGates(c, Init(c), schedule);
    RunKeepsData(c, Init(c), schedule);
  }

  lemma {:induction false} OccursOnce(q: seq<nat>, d: nat)
    requires Distinct(q)
    ensures multiset(q)[d] == if d in q then 1 else 0
  {
    if q == [] {
    } else {
      OccursOnce(q[1..], d);
      assert q == [q[0]] + q[1..];
    }
  }

  /**
    Each call of `tu_result` or `tu_dfg_push_data` puts exactly one copy into the queue of each
    receiver it has come to, and none elsewhere.
   */
  lemma OneCopyEach(c: Config, schedule: seq<(Tid, Action)>, d: nat, port: Port)
    requires WellFormed(c)
    ensures var s := Run(c, Init(c), schedule);
      d < |s.deliveries| && port in s.queues ==>
        multiset(s.queues[port].arrived)[d] ==
          (if port.typ == s.deliveries[d].typ && port.node in s.deliveries[d].pushed then 1 else 0)
  {
    RunInv(c, schedule);
    var s := Run(c, Init(c), schedule);
    hide WellFormed, Run, Init, HandInv, DeliveryInv, GatesInv;
    if port in s.queues {
      assert QueueInv(s, port);
      OccursOnce(s.queues[port].arrived, d);
    }
  }

  lemma ReturnMeansServed(c: Config, s: State, p: Tid)
    requires Fits(c, s) && Delivers(PcOf(s, p)) && !Delivers(PcOf(Next(c, s, p, Go), p))
    ensures Served(s, PcOf(s, p).d)
  {
    hide WellFormed, PortsFit, NodeAt;
  }

  lemma ServedMeansComplete(c: Config, s: State, d: nat)
    requires DataInv(c, s) && Served(s, d)
    ensures s.deliveries[d].notified == s.deliveries[d].pushed == s.deliveries[d].to
  {
    hide QueueInv, HandInv;
    assert DeliveryInv(c, s, d);
  }

  /** When the call returns it has come to all its receivers, and has notified each. */
  lemma ReturnedCallsAreComplete(c: Config, schedule: seq<(Tid, Action)>, p: Tid)
    requires WellFormed(c)
    requires var s := Run(c, Init(c), schedule);
      Delivers(PcOf(s, p)) && !Delivers(PcOf(Next(c, s, p, Go), p))
    ensures var s := Run(c, Init(c), schedule); var d := PcOf(s, p).d;
      d < |s.deliveries| && s.deliveries[d].notified == s.deliveries[d].pushed == s.deliveries[d].to
  {
    hide WellFormed, Run, Init, Next, DataInv, GatesInv, PortsFit;
    RunInv(c, schedule);
    ReturnMeansServed(c, Run(c, Init(c), schedule), p);
    ServedMeansComplete(c, Run(c, Init(c), schedule), PcOf(Run(c, Init(c), schedule), p).d);
  }

  /** What was popped is a prefix of what was pushed; each datum of it is done, or in one worker's hand. */
  ghost predicate IsFifo(s: State, q: Queue, port: Port) {
    && |q.fates| <= |q.arrived| && q.items == q.arrived[|q.fates|..]
    && forall k: nat :: k < |q.fates| && q.fates[k] != Done ==>
         Holds(PcOf(s, q.fates[k].w), port, k) && forall w :: Holds(PcOf(s, w), port, k) ==> w == q.fates[k].w
  }

  lemma OneHolder(s: State, w: Tid, port: Port, k: nat)
    requires HandInv(s, w) && Holds(PcOf(s, w), port, k)
    ensures port in s.queues && k < |s.queues[port].fates| && s.queues[port].fates[k] == Taken(w)
  {
  }

  lemma QueueIsFifo(c: Config, s: State, port: Port)
    requires DataInv(c, s) && port in s.queues
    ensures IsFifo(s, s.queues[port], port)
  {
    assert QueueInv(s, port);
    forall k: nat, w | Holds(PcOf(s, w), port, k)
      ensures k < |s.queues[port].fates| && s.queues[port].fates[k] == Taken(w)
    {
      assert HandInv(s, w);
      OneHolder(s, w, port, k);
    }
    hide HandInv, DeliveryInv, Holds;
  }

  /** Queues are first in, first out, and a popped datum is in one worker's hand or done. */
  lemma QueuesAreFifo(c: Config, schedule: seq<(Tid, Action)>, port: Port)
    requires WellFormed(c)
    ensures var s := Run(c, Init(c), schedule); port in s.queues ==> IsFifo(s, s.queues[port], port)
  {
    hide *;
    RunInv(c, schedule);
    if port in Run(c, Init(c), schedule).queues {
      QueueIsFifo(c, Run(c, Init(c), schedule), port);
    }
  }

  function DoneCount(f: seq<Fate>): nat {
    if f == [] then 0 else DoneCount(f[..|f| - 1]) + if f[|f| - 1] == Done then 1 else 0
  }

  function TakenBy(f: seq<Fate>): set<Tid> {
    if f == [] then {} else TakenBy(f[..|f| - 1]) + if f[|f| - 1] == Done then {} else {f[|f| - 1].w}
  }

  lemma UnfoldCounts(f: seq<Fate>)
    ensures f == [] ==> DoneCount(f) == 0 && TakenBy(f) == {}
    ensures f != [] ==> var g, x := f[..|f| - 1], f[|f| - 1];
      && f == g + [x]
      && DoneCount(f) == DoneCount(g) + (if x == Done then 1 else 0)
      && TakenBy(f) == TakenBy(g) + if x == Done then {} else {x.w}
  {
  }

  lemma {:induction false} CountFates(f: seq<Fate>)
    requires forall i, j :: 0 <= i < j < |f| && f[i].Taken? ==> f[i] != f[j]
    ensures |f| == DoneCount(f) + |TakenBy(f)|
    ensures forall w :: w in TakenBy(f) <==> Taken(w) in f
  {
    hide *;
    UnfoldCounts(f);
    if f == [] {
    } else {
      CountFates(f[..|f| - 1]);
    }
  }

  /** The workers that are executing data of `port`. */
  function Executing(c: Config, s: State, port: Port): set<Tid> {
    set p | p in c.team && (PcOf(s, p).Running? || PcOf(s, p).Sending?) && PcOf(s, p).port == port
  }

  lemma TakenAreExecuting(c: Config, s: State, port: Port)
    requires Fits(c, s) && GatesInv(c, s) && DataInv(c, s) && port in s.queues
    ensures forall w :: Taken(w) in s.queues[port].fates <==> w in Executing(c, s, port)
    ensures var f := s.queues[port].fates; forall i, j :: 0 <= i < j < |f| && f[i].Taken? ==> f[i] != f[j]
  {
    assert QueueInv(s, port);
    var f := s.queues[port].fates;
    forall w ensures Taken(w) in f <==> w in Executing(c, s, port) {
      assert HandInv(s, w) && PlaceInv(c, s, w);
    }
    hide WellFormed, PortsFit, DeliveryInv, GateInv;
  }

  /** Conservation: pushed = executed + being executed + queued, for every node, type and run. */
  lemma DataIsConserved(c: Config, schedule: seq<(Tid, Action)>, port: Port)
    requires WellFormed(c)
    ensures var s := Run(c, Init(c), schedule);
      port in s.queues ==>
        var q := s.queues[port];
        |q.arrived| == DoneCount(q.fates) + |Executing(c, s, port)| + |q.items|
  {
    RunInv(c, schedule);
    var s := Run(c, Init(c), schedule);
    hide WellFormed, PortsFit, Run, Init, DeliveryInv, GatesInv, Executing;
    if port in s.queues {
      assert QueueInv(s, port);
      TakenAreExecuting(c, s, port);
      CountFates(s.queues[port].fates);
      assert TakenBy(s.queues[port].fates) == Executing(c, s, port);
    }
  }
}
