/**
  Which queues of a graph data can come to, and how: in every run a queue with data is one that some
  way leads to, and data that only the node itself can have sent are looked after, if it is a state.
 */
module DataFlowReach {
  import opened Common
  import opened DataFlow
  import opened DataFlowData
  import opened DataFlowWake

  /** A worker that executes at the node of `q` can send data to `q'`. */
  predicate Passes(c: Config, q: Port, q': Port) {
    && q.node < |c.nodes| && 0 < c.nodes[q.node].cap && Workers(c, c.nodes[q.node].group) != {}
    && q'.typ in c.nodes[q.node].succ && q'.node in c.nodes[q.node].succ[q'.typ]
  }

  /** Outside data is pushed to `q`. */
  predicate IsInput(c: Config, q: Port) { q.typ in c.inputs && q.node in c.inputs[q.typ] }

  /** A way for data from outside to `port`. */
  ghost predicate Leads(c: Config, way: seq<Port>, port: Port) {
    && way != [] && way[|way| - 1] == port && IsInput(c, way[0])
    && (forall i :: 0 <= i < |way| - 1 ==> Passes(c, way[i], way[i + 1]))
  }

  /** The last to send data along the way is the node they come to. */
  predicate EndsInLoop(way: seq<Port>) { |way| >= 2 && way[|way| - 2].node == way[|way| - 1].node }

  lemma WayFits(c: Config, way: seq<Port>, port: Port, i: nat)
    requires WellFormed(c) && Leads(c, way, port) && i < |way|
    ensures way[i].node < |c.nodes| && way[i].typ in c.nodes[way[i].node].types
  {
    if i == 0 {
      assert Receivers(c, c.inputs[way[0].typ], way[0].typ);
    } else {
      assert Passes(c, way[i - 1], way[i]);
      assert Receivers(c, c.nodes[way[i - 1].node].succ[way[i].typ], way[i].typ);
    }
  }

  // ----- in every run ------------------------------------------------------------------------------

  ghost predicate Reachable(c: Config, q: Port) { exists way :: Leads(c, way, q) }

  /** Data can come to the queue, and if its node is a state, then not only from the node itself. */
  ghost predicate MayBeLeft(c: Config, q: Port)
    requires q.node < |c.nodes|
  {
    exists way :: Leads(c, way, q) && (c.nodes[q.node].isState ==> !EndsInLoop(way))
  }

  /** A worker at the node that will look at queue `q` before it leaves the node, if it is a state. */
  predicate Tends(c: Config, p: Tid, pc: Pc, q: Port)
    requires q.node < |c.nodes|
  {
    && p in c.team && c.team[p] == c.nodes[q.node].group
    && (pc.Running? || pc.Sending? || (pc.Looking? && q.typ in pc.todo)) && pc.i == c.nodes[q.node].pos
  }

  /** What a thread at work has in hand came along a way, and where its delivery goes. */
  ghost predicate SourceInv(c: Config, s: State, p: Tid)
    requires Fits(c, s)
  {
    match PcOf(s, p)
    case Running(i, n, m, port, k) => AtNode(c, p, i) && port.node == NodeAt(c, p, i) && Reachable(c, port)
    case Sending(i, n, m, port, k, d) =>
      && AtNode(c, p, i) && port.node == NodeAt(c, p, i) && Reachable(c, port) && d < |s.deliveries|
      && s.deliveries[d].typ in c.nodes[port.node].succ
      && s.deliveries[d].to == c.nodes[port.node].succ[s.deliveries[d].typ]
    case Feeding(d) =>
      d < |s.deliveries| && s.deliveries[d].typ in c.inputs && s.deliveries[d].to == c.inputs[s.deliveries[d].typ]
    case _ => true
  }

  ghost predicate TendInv(c: Config, s: State, q: Port)
    requires Fits(c, s) && q in s.queues
  {
    s.queues[q].items != [] ==> Reachable(c, q) && (MayBeLeft(c, q) || exists p :: Tends(c, p, PcOf(s, p), q))
  }

  ghost predicate ReachInv(c: Config, s: State)
    requires Fits(c, s)
  {
    && (forall p: Tid :: SourceInv(c, s, p))
    && (forall q: Port :: q in s.queues ==> TendInv(c, s, q))
  }

  lemma InitReach(c: Config)
    requires WellFormed(c)
    ensures ReachInv(c, Init(c))
  {
  }

  // ----- what a step leaves alone --------------------------------------------------------------------

  ghost predicate DeliveriesStay(s: State, s': State) {
    && |s.deliveries| <= |s'.deliveries|
    && forall d: nat :: d < |s.deliveries| ==>
         s'.deliveries[d].typ == s.deliveries[d].typ && s'.deliveries[d].to == s.deliveries[d].to
  }

  lemma GoKeepsDeliveries(c: Config, s: State, p: Tid)
    requires Fits(c, s) && p in c.team
    ensures DeliveriesStay(s, WorkerGo(c, s, p))
  {
    hide WellFormed, PortsFit;
  }

  lemma CallKeepsDeliveries(c: Config, s: State, p: Tid, a: Action)
    requires Fits(c, s) && (a.Emit? || a.Feed? || a.Raise? || a.Release? || a.Look?)
    ensures DeliveriesStay(s, Next(c, s, p, a))
  {
    hide WellFormed, PortsFit, NodeAt;
  }

  lemma DeliveryKeepsDeliveries(c: Config, s: State, p: Tid, a: Action)
    requires Fits(c, s) && (a.PushTo? || a.Notify? || (a.Go? && p !in c.team))
    ensures DeliveriesStay(s, Next(c, s, p, a))
  {
    hide WellFormed, PortsFit;
  }

  lemma NextKeepsDeliveries(c: Config, s: State, p: Tid, a: Action)
    requires Fits(c, s)
    ensures DeliveriesStay(s, Next(c, s, p, a))
  {
    hide WellFormed, PortsFit, WorkerGo, DeliveriesStay;
    if a.Go? && p in c.team {
      GoKeepsDeliveries(c, s, p);
    } else if a.Emit? || a.Feed? || a.Raise? || a.Release? || a.Look? {
      CallKeepsDeliveries(c, s, p, a);
    } else {
      DeliveryKeepsDeliveries(c, s, p, a);
    }
  }

  lemma OtherSources(c: Config, s: State, s': State, p: Tid, q: Tid)
    requires Fits(c, s) && Fits(c, s') && OthersStay(s, s', p) && DeliveriesStay(s, s') && SourceInv(c, s, q) && q != p
    ensures SourceInv(c, s', q)
  {
    hide WellFormed, PortsFit, Reachable;
  }

  // ----- the thread's own source ------------------------------------------------------------------------

  lemma GoKeepsSource(c: Config, s: State, p: Tid)
    requires Fits(c, s) && p in c.team && PlaceInv(c, s, p) && SourceInv(c, s, p)
    ensures SourceInv(c, WorkerGo(c, s, p), p)
  {
    hide WellFormed, PortsFit, Reachable, NodeAt;
  }

  lemma CallKeepsSource(c: Config, s: State, p: Tid, a: Action)
    requires Fits(c, s) && SourceInv(c, s, p) && (a.Emit? || a.Feed?)
    ensures SourceInv(c, Next(c, s, p, a), p)
  {
    hide WellFormed, PortsFit, Reachable, NodeAt;
  }

  lemma DeliveryKeepsSource(c: Config, s: State, p: Tid, a: Action)
    requires Fits(c, s) && SourceInv(c, s, p)
    requires a.PushTo? || a.Notify? || a.Raise? || a.Release? || (a.Go? && p !in c.team)
    ensures SourceInv(c, Next(c, s, p, a), p)
  {
    hide WellFormed, PortsFit, Reachable, NodeAt;
  }

  lemma LookKeepsSource(c: Config, s: State, p: Tid, t: TypeId)
    requires Fits(c, s) && SourceInv(c, s, p) && ReachInv(c, s)
    ensures SourceInv(c, Next(c, s, p, Look(t)), p)
  {
    if PcOf(s, p).Looking? && AtNode(c, p, PcOf(s, p).i) {
      var q := Port(NodeAt(c, p, PcOf(s, p).i), t);
      assert q in s.queues ==> TendInv(c, s, q);
    }
    hide WellFormed, PortsFit, Reachable, NodeAt, MayBeLeft, Tends;
  }

  lemma NextKeepsSource(c: Config, s: State, p: Tid, a: Action)
    requires Fits(c, s) && PlaceInv(c, s, p) && ReachInv(c, s)
    ensures SourceInv(c, Next(c, s, p, a), p)
  {
    assert SourceInv(c, s, p);
    hide WellFormed, PortsFit, ReachInv, SourceInv, WorkerGo, PlaceInv;
    if a.Go? && p in c.team {
      GoKeepsSource(c, s, p);
    } else if a.Emit? || a.Feed? {
      CallKeepsSource(c, s, p, a);
    } else if a.Look? {
      LookKeepsSource(c, s, p, a.t);
    } else {
      DeliveryKeepsSource(c, s, p, a);
    }
  }

  // ----- the queues ---------------------------------------------------------------------------------------

  /** A queue that data come to is fed from outside, or by a worker that a way leads to. */
  lemma PushLeads(c: Config, s: State, p: Tid, z: nat)
    requires Fits(c, s) && GatesInv(c, s) && SourceInv(c, s, p) && z < |c.nodes|
    requires Delivers(PcOf(s, p)) && MayPush(s, PcOf(s, p), z)
    ensures var q := Port(z, s.deliveries[PcOf(s, p).d].typ);
      Reachable(c, q) && (MayBeLeft(c, q) || Tends(c, p, PcOf(s, p), q))
  {
    var pc := PcOf(s, p);
    var q := Port(z, s.deliveries[pc.d].typ);
    if pc.Feeding? {
      InputLeads(c, q);
    } else {
      WorkerLeads(c, s, p);
      SentLeads(c, pc.port, q);
      assert PlaceInv(c, s, p);
    }
    hide WellFormed, PortsFit, GateInv, Reachable, MayBeLeft;
  }

  lemma InputLeads(c: Config, q: Port)
    requires IsInput(c, q) && q.node < |c.nodes|
    ensures Reachable(c, q) && MayBeLeft(c, q)
  {
    assert Leads(c, [q], q);
  }

  /** A worker that executes has been admitted: the cap of the node is positive. */
  lemma WorkerLeads(c: Config, s: State, p: Tid)
    requires Fits(c, s) && GatesInv(c, s) && SourceInv(c, s, p) && PcOf(s, p).Sending?
    ensures p in c.team && PcOf(s, p).port.node < |c.nodes| && c.nodes[PcOf(s, p).port.node].cap > 0
    ensures p in Workers(c, c.nodes[PcOf(s, p).port.node].group)
  {
    var y := PcOf(s, p).port.node;
    assert PlaceInv(c, s, p) && GateInv(c, s, y);
    assert p in s.gates[y].working;
    hide WellFormed, PortsFit, Reachable;
  }

  lemma SentLeads(c: Config, q: Port, q': Port)
    requires Reachable(c, q) && Passes(c, q, q') && q'.node < |c.nodes|
    ensures Reachable(c, q')
    ensures MayBeLeft(c, q') || (q.node == q'.node && c.nodes[q'.node].isState)
  {
    var way :| Leads(c, way, q);
    var longer := way + [q'];
    forall i | 0 <= i < |longer| - 1 ensures Passes(c, longer[i], longer[i + 1]) {
      if i < |way| - 1 { assert Passes(c, way[i], way[i + 1]); }
    }
    assert Leads(c, longer, q');
  }

  lemma LeftUnlessState(c: Config, q: Port)
    requires Reachable(c, q) && q.node < |c.nodes| && !c.nodes[q.node].isState
    ensures MayBeLeft(c, q)
  {
    var way :| Leads(c, way, q);
  }

  lemma QueueFits(c: Config, s: State, s': State, q: Port)
    requires Fits(c, s) && Fits(c, s') && q in s.queues
    ensures q.node < |c.nodes| && q.typ in c.nodes[q.node].types && q in s'.queues
  {
    assert q in s.queues.Keys && q in s'.queues.Keys;
    hide WellFormed;
  }

  lemma StaysTended(c: Config, s: State, s': State, p: Tid, q: Port)
    requires Fits(c, s) && Fits(c, s') && OthersStay(s, s', p) && q in s.queues && q in s'.queues && TendInv(c, s, q)
    requires s'.queues[q].items != [] ==> s.queues[q].items != []
    requires s'.queues[q].items != [] && c.nodes[q.node].isState && Tends(c, p, PcOf(s, p), q) ==>
      Tends(c, p, PcOf(s', p), q)
    ensures TendInv(c, s', q)
  {
    hide WellFormed, PortsFit, Reachable, MayBeLeft, Tends;
    QueueFits(c, s, s', q);
    if s'.queues[q].items != [] && !MayBeLeft(c, q) {
      if !c.nodes[q.node].isState { LeftUnlessState(c, q); }
      var w :| Tends(c, w, PcOf(s, w), q);
      assert Tends(c, w, PcOf(s', w), q);
    }
  }

  lemma GoTends(c: Config, s: State, p: Tid, q: Port)
    requires Fits(c, s) && p in c.team && PlaceInv(c, s, p) && q in s.queues
    requires c.nodes[q.node].isState && Tends(c, p, PcOf(s, p), q)
    ensures Tends(c, p, PcOf(WorkerGo(c, s, p), p), q)
  {
    OneNodePerPosition(c, p, PcOf(s, p).i, q.node);
    hide WellFormed, NodeAt;
  }

  lemma GoKeepsTended(c: Config, s: State, p: Tid, q: Port)
    requires Fits(c, s) && p in c.team && PlaceInv(c, s, p) && q in s.queues && TendInv(c, s, q)
    ensures TendInv(c, WorkerGo(c, s, p), q)
  {
    hide WellFormed, PortsFit, TendInv, Tends, WorkerGo, PlaceInv;
    QueueFits(c, s, WorkerGo(c, s, p), q);
    GoFrame(c, s, p, q);
    GoStaysApart(c, s, p);
    if c.nodes[q.node].isState && Tends(c, p, PcOf(s, p), q) { GoTends(c, s, p, q); }
    StaysTended(c, s, WorkerGo(c, s, p), p, q);
  }

  /** A pop takes the worker inside; what it found empty needs no tending. */
  lemma LookTends(c: Config, s: State, p: Tid, t: TypeId, q: Port)
    requires Fits(c, s) && PlaceInv(c, s, p) && q in s.queues && Tends(c, p, PcOf(s, p), q)
    ensures var s' := Next(c, s, p, Look(t)); Tends(c, p, PcOf(s', p), q) || s.queues[q].items == []
  {
    OneNodePerPosition(c, p, PcOf(s, p).i, q.node);
    hide WellFormed, PortsFit, NodeAt;
  }

  lemma LookKeepsTended(c: Config, s: State, p: Tid, t: TypeId, q: Port)
    requires Fits(c, s) && PlaceInv(c, s, p) && q in s.queues && TendInv(c, s, q)
    ensures TendInv(c, Next(c, s, p, Look(t)), q)
  {
    hide WellFormed, PortsFit, TendInv, Tends, Next, PlaceInv;
    QueueFits(c, s, Next(c, s, p, Look(t)), q);
    LookFrame(c, s, p, t);
    NextStaysApart(c, s, p, Look(t));
    if Tends(c, p, PcOf(s, p), q) { LookTends(c, s, p, t, q); }
    StaysTended(c, s, Next(c, s, p, Look(t)), p, q);
  }

  lemma CallTends(c: Config, s: State, p: Tid, a: Action, q: Port)
    requires Fits(c, s) && q in s.queues
    requires a.Emit? || a.Feed? || a.Notify? || a.Raise? || a.Release? || (a.Go? && p !in c.team)
    ensures var s' := Next(c, s, p, a);
      s'.queues == s.queues && (Tends(c, p, PcOf(s, p), q) ==> Tends(c, p, PcOf(s', p), q))
  {
    hide WellFormed, PortsFit, NodeAt;
  }

  lemma CallKeepsTended(c: Config, s: State, p: Tid, a: Action, q: Port)
    requires Fits(c, s) && (a.Emit? || a.Feed? || a.Notify? || a.Raise? || a.Release? || (a.Go? && p !in c.team))
    requires q in s.queues && TendInv(c, s, q)
    ensures TendInv(c, Next(c, s, p, a), q)
  {
    hide WellFormed, PortsFit, TendInv, Tends, Next;
    QueueFits(c, s, Next(c, s, p, a), q);
    CallTends(c, s, p, a, q);
    NextStaysApart(c, s, p, a);
    StaysTended(c, s, Next(c, s, p, a), p, q);
  }

  lemma PushKeepsTended(c: Config, s: State, p: Tid, z: nat, q: Port)
    requires Fits(c, s) && GatesInv(c, s) && SourceInv(c, s, p) && q in s.queues && TendInv(c, s, q)
    ensures TendInv(c, Next(c, s, p, PushTo(z)), q)
  {
    hide WellFormed, PortsFit, GatesInv, SourceInv, Tends, Reachable, MayBeLeft, MayPush;
    var s' := Next(c, s, p, PushTo(z));
    QueueFits(c, s, s', q);
    PushStepIsPush(c, s, p, z);
    if s' != s && q == Port(z, s.deliveries[PcOf(s, p).d].typ) {
      PushLeads(c, s, p, z);
      assert MayBeLeft(c, q) || Tends(c, p, PcOf(s', p), q);
    } else if s' != s {
      StaysTended(c, s, s', p, q);
    }
  }

  lemma NextKeepsReach(c: Config, s: State, p: Tid, a: Action)
    requires Fits(c, s) && GatesInv(c, s) && ReachInv(c, s)
    ensures ReachInv(c, Next(c, s, p, a))
  {
    assert PlaceInv(c, s, p) && SourceInv(c, s, p);
    hide WellFormed, PortsFit, WorkerGo, TendInv, SourceInv, PlaceInv, GateInv, OthersStay, DeliveriesStay;
    var s' := Next(c, s, p, a);
    NextStaysApart(c, s, p, a);
    NextKeepsDeliveries(c, s, p, a);
    forall w: Tid ensures SourceInv(c, s', w) {
      if w == p { NextKeepsSource(c, s, p, a); } else { OtherSources(c, s, s', p, w); }
    }
    forall q: Port | q in s'.queues ensures TendInv(c, s', q) {
      SameQueues(c, s, p, a, q);
      match a {
        case Look(t) => LookKeepsTended(c, s, p, t, q);
        case PushTo(z) => PushKeepsTended(c, s, p, z, q);
        case Go => if p in c.team { GoKeepsTended(c, s, p, q); } else { CallKeepsTended(c, s, p, a, q); }
        case _ => CallKeepsTended(c, s, p, a, q);
      }
    }
  }

  lemma SameQueues(c: Config, s: State, p: Tid, a: Action, q: Port)
    requires Fits(c, s) && q in Next(c, s, p, a).queues
    ensures q in s.queues
  {
    QueueFits(c, Next(c, s, p, a), s, q);
    hide WellFormed, PortsFit, Next;
  }

  lemma {:induction false} RunKeepsReach(c: Config, s: State, schedule: seq<(Tid, Action)>)
    requires Fits(c, s) && GatesInv(c, s) && ReachInv(c, s)
    ensures ReachInv(c, Run(c, s, schedule))
    decreases |schedule|
  {
    hide WellFormed, PortsFit, GatesInv, ReachInv, Next;
    if schedule == [] {
    } else {
      NextKeepsGates(c, s, schedule[0].0, schedule[0].1);
      NextKeepsReach(c, s, schedule[0].0, schedule[0].1);
      RunKeepsReach(c, Next(c, s, schedule[0].0, schedule[0].1), schedule[1..]);
    }
  }

  /** Data that lie where everybody sleeps can have been left there. */
  lemma StrandedMayBeLeft(c: Config, s: State, q: Port)
    requires Fits(c, s) && ReachInv(c, s) && q in s.queues && Stranded(c, s, q)
    ensures MayBeLeft(c, q)
  {
    QueueFits(c, s, s, q);
    assert TendInv(c, s, q);
    forall w: Tid ensures !Tends(c, w, PcOf(s, w), q) {
      assert w in c.team && c.team[w] == c.nodes[q.node].group ==> w in Workers(c, c.nodes[q.node].group);
    }
    hide WellFormed, PortsFit, SourceInv, Reachable, MayBeLeft;
  }

  lemma StrandedRunMayBeLeft(c: Config, schedule: seq<(Tid, Action)>, q: Port)
    requires WellFormed(c) && q.node < |c.nodes|
    requires var s := Run(c, Init(c), schedule); q in s.queues && Stranded(c, s, q)
    ensures MayBeLeft(c, q)
  {
    hide WellFormed, PortsFit, ReachInv, GatesInv, Stranded, Run, Init, MayBeLeft;
    InitGates(c);
    InitReach(c);
    RunKeepsReach(c, Init(c), schedule);
    StrandedMayBeLeft(c, Run(c, Init(c), schedule), q);
  }

  /** In every run data are only where some way leads to. */
  lemma DataCameAlongAWay(c: Config, schedule: seq<(Tid, Action)>, q: Port)
    requires WellFormed(c)
    ensures var s := Run(c, Init(c), schedule); q in s.queues && s.queues[q].items != [] ==> Reachable(c, q)
  {
    InitGates(c);
    InitReach(c);
    RunKeepsReach(c, Init(c), schedule);
    var s := Run(c, Init(c), schedule);
    if q in s.queues {
      assert TendInv(c, s, q);
    }
    hide WellFormed, PortsFit, GatesInv, Run, Init, MayBeLeft, SourceInv, Reachable;
  }
}
