/** Which nodes can be left with data that nobody will come for. */
module DataFlowWake {
  import opened Common
  import opened DataFlow
  import opened DataFlowData

  /** A worker in this place looks at queue `t` of the node at position `pos` before it sleeps. */
  predicate Bound(pc: Pc, pos: nat, t: TypeId) {
    match pc
    case Woken => true
    case AtLoad(i, n) => n > 0 || i <= pos
    case AtAdd(i, n) => n > 0 || i <= pos
    case Looking(i, n, todo, m) => n > 0 || i < pos || (i == pos && t in todo)
    case Running(i, n, m, port, k) => true
    case Sending(i, n, m, port, k, d) => true
    case Leaving(i, n) => n > 0 || i < pos
    case Stepping(i, n) => n > 0 || i < pos
    case _ => false
  }

  /** The thread has pushed to node `x` and owes its group a release. */
  predicate Owes(s: State, pc: Pc, x: nat) {
    Delivers(pc) && pc.d < |s.deliveries| && x in s.deliveries[pc.d].pushed - s.deliveries[pc.d].notified
  }

  /** Thread `p` will see to `port`. */
  predicate SeesTo(c: Config, s: State, p: Tid, port: Port)
    requires port.node < |c.nodes|
  {
    var x := c.nodes[port.node];
    Owes(s, PcOf(s, p), port.node) || (p in c.team && c.team[p] == x.group && Bound(PcOf(s, p), x.pos, port.typ))
  }

  /** No worker of the group has been told to stop. */
  predicate Serving(c: Config, s: State, g: nat) { Workers(c, g) !! s.closing }

  /** Before termination a non-empty queue means a permit, a release owed, or a worker on its way. */
  ghost predicate Attended(c: Config, s: State, port: Port)
    requires Fits(c, s) && port in s.queues
  {
    || !Serving(c, s, c.nodes[port.node].group) || s.queues[port].items == []
    || s.permits[c.nodes[port.node].group] > 0
    || exists p: Tid :: SeesTo(c, s, p, port)
  }

  /** Every worker of the group may process the node at the same time. */
  predicate Uncapped(c: Config, x: nat)
    requires x < |c.nodes|
  {
    |Workers(c, c.nodes[x].group)| <= c.nodes[x].cap
  }

  lemma Smaller(a: set<Tid>, b: set<Tid>, p: Tid)
    requires a <= b && p in b && p !in a
    ensures |a| < |b|
  {
    assert b == (a + {p}) + (b - a - {p});
  }

  /** A worker that is not at the node finds it open: the others are too few to close it. */
  lemma Open(c: Config, s: State, p: Tid, x: nat)
    requires Fits(c, s) && x < |c.nodes| && GateInv(c, s, x) && Uncapped(c, x)
    requires p in c.team && c.team[p] == c.nodes[x].group && !IsInside(PcOf(s, p))
    ensures s.gates[x].count < c.nodes[x].cap
  {
    hide WellFormed, PortsFit;
    Smaller(s.gates[x].inside, Workers(c, c.nodes[x].group), p);
  }

  /** A bound worker stays bound as it goes on, or has found the queue empty. */
  lemma GoStaysBound(c: Config, s: State, p: Tid, x: nat, t: TypeId)
    requires Fits(c, s) && x < |c.nodes| && GateInv(c, s, x) && PlaceInv(c, s, p) && Uncapped(c, x) && p !in s.closing
    requires p in c.team && c.team[p] == c.nodes[x].group && Bound(PcOf(s, p), c.nodes[x].pos, t)
    requires t in c.nodes[x].types
    ensures Bound(PcOf(WorkerGo(c, s, p), p), c.nodes[x].pos, t)
  {
    var pc := PcOf(s, p);
    assert c.nodes[x].pos < |GroupNodes(c, p)|;
    if (pc.AtLoad? || pc.AtAdd?) && pc.i == c.nodes[x].pos {
      Open(c, s, p, x);
      OneNodePerPosition(c, p, pc.i, x);
    }
    hide WellFormed, PortsFit, GateInv, Uncapped;
  }

  /** A step of `p` leaves what the other threads see to. */
  lemma OthersSee(c: Config, s: State, s': State, p: Tid, q: Tid, port: Port)
    requires Fits(c, s) && port.node < |c.nodes| && q != p && OthersStay(s, s', p) && SeesTo(c, s, q, port)
    requires |s.deliveries| <= |s'.deliveries|
    requires forall d: nat :: d < |s.deliveries| ==>
      port.node in s.deliveries[d].pushed - s.deliveries[d].notified ==>
        port.node in s'.deliveries[d].pushed - s'.deliveries[d].notified
    ensures SeesTo(c, s', q, port)
  {
    hide WellFormed, PortsFit;
  }

  lemma GoFrame(c: Config, s: State, p: Tid, port: Port)
    requires Fits(c, s) && p in c.team && port in s.queues
    ensures var s' := WorkerGo(c, s, p);
      s'.queues[port].items == s.queues[port].items && s'.deliveries == s.deliveries && s'.closing == s.closing
  {
    hide WellFormed, PortsFit, NodeAt;
  }

  lemma GoPermits(c: Config, s: State, p: Tid, g: nat)
    requires Fits(c, s) && p in c.team && g < |c.groups| && s.permits[g] > 0
    ensures WorkerGo(c, s, p).permits[g] > 0 || (c.team[p] == g && PcOf(WorkerGo(c, s, p), p).Woken?)
  {
    hide WellFormed, PortsFit, NodeAt;
  }

  /** What a delivering worker owes, it still owes when it goes on. */
  lemma GoStaysOwing(c: Config, s: State, p: Tid, x: nat)
    requires Fits(c, s) && p in c.team && DataInv(c, s) && Owes(s, PcOf(s, p), x) && PcOf(s, p).Sending?
    ensures Owes(WorkerGo(c, s, p), PcOf(WorkerGo(c, s, p), p), x)
  {
    assert DeliveryInv(c, s, PcOf(s, p).d);
    hide WellFormed, PortsFit, NodeAt, QueueInv, HandInv;
  }

  lemma GoKeepsAttended(c: Config, s: State, p: Tid, port: Port)
    requires Fits(c, s) && GatesInv(c, s) && DataInv(c, s) && p in c.team
    requires port in s.queues && Uncapped(c, port.node) && Attended(c, s, port)
    ensures Attended(c, WorkerGo(c, s, p), port)
  {
    var s' := WorkerGo(c, s, p);
    var x, g := port.node, c.nodes[port.node].group;
    GoFrame(c, s, p, port);
    GoStaysApart(c, s, p);
    assert PlaceInv(c, s, p) && GateInv(c, s, x);
    hide WorkerGo, GateInv, PlaceInv, DataInv, Bound, Owes, Uncapped;
    if !Serving(c, s, g) || s.queues[port].items == [] {
    } else if s.permits[g] > 0 {
      GoPermits(c, s, p, g);
      if s'.permits[g] == 0 { WokenSees(c, s', p, port); }
    } else {
      var q: Tid :| SeesTo(c, s, q, port);
      if q != p {
        OthersSee(c, s, s', p, q, port);
      } else if Owes(s, PcOf(s, p), x) {
        OwingWorkerSends(c, s, p, x);
        GoStaysOwing(c, s, p, x);
        assert SeesTo(c, s', p, port);
      } else {
        GoStaysBound(c, s, p, x, port.typ);
        assert SeesTo(c, s', p, port);
      }
    }
  }

  lemma WokenSees(c: Config, s: State, p: Tid, port: Port)
    requires port.node < |c.nodes| && p in c.team && c.team[p] == c.nodes[port.node].group && PcOf(s, p).Woken?
    ensures SeesTo(c, s, p, port)
  {
  }

  lemma OwingWorkerSends(c: Config, s: State, p: Tid, x: nat)
    requires Fits(c, s) && p in c.team && PlaceInv(c, s, p) && Owes(s, PcOf(s, p), x)
    ensures PcOf(s, p).Sending?
  {
  }

  // ----- the other accesses -----------------------------------------------------------------------------

  lemma PushKeepsSeeing(c: Config, s: State, s': State, d: nat, y: nat, q: Tid, port: Port)
    requires port.node < |c.nodes| && IsPush(s, s', d, y) && SeesTo(c, s, q, port)
    ensures SeesTo(c, s', q, port)
  {
    hide Bound;
  }

  lemma PusherSees(c: Config, s: State, s': State, p: Tid, y: nat, port: Port)
    requires port.node < |c.nodes| && Delivers(PcOf(s, p)) && IsPush(s, s', PcOf(s, p).d, y) && port.node == y
    requires y !in s.deliveries[PcOf(s, p).d].notified
    ensures SeesTo(c, s', p, port)
  {
    hide Bound;
  }

  lemma PushKeepsAttended(c: Config, s: State, p: Tid, y: nat, port: Port)
    requires Fits(c, s) && DataInv(c, s) && port in s.queues && Attended(c, s, port)
    ensures Attended(c, Next(c, s, p, PushTo(y)), port)
  {
    var s' := Next(c, s, p, PushTo(y));
    PushStepIsPush(c, s, p, y);
    if s' != s {
      var d := PcOf(s, p).d;
      assert DeliveryInv(c, s, d);
      PushFrame(c, s, p, y);
      if port == Port(y, s.deliveries[d].typ) {
        PusherSees(c, s, s', p, y, port);
      } else if q: Tid :| SeesTo(c, s, q, port) {
        PushKeepsSeeing(c, s, s', d, y, q, port);
      }
    }
    hide WellFormed, PortsFit, Next, SeesTo, QueueInv, HandInv;
  }

  lemma PushFrame(c: Config, s: State, p: Tid, y: nat)
    requires Fits(c, s)
    ensures var s' := Next(c, s, p, PushTo(y)); s'.permits == s.permits && s'.closing == s.closing
  {
    hide WellFormed, PortsFit;
  }

  lemma NotifyKeepsAttended(c: Config, s: State, p: Tid, y: nat, port: Port)
    requires Fits(c, s) && port in s.queues && Attended(c, s, port)
    ensures Attended(c, Next(c, s, p, Notify(y)), port)
  {
    var s' := Next(c, s, p, Notify(y));
    hide WellFormed, PortsFit, Bound;
    if y != port.node {
      if q: Tid :| SeesTo(c, s, q, port) {
        assert SeesTo(c, s', q, port);
      }
    } else if s' == s {
    } else {
      assert s'.permits[c.nodes[y].group] > 0;
    }
  }

  lemma LookKeepsAttended(c: Config, s: State, p: Tid, t: TypeId, port: Port)
    requires Fits(c, s) && PlaceInv(c, s, p) && port in s.queues && Attended(c, s, port)
    ensures Attended(c, Next(c, s, p, Look(t)), port)
  {
    var s' := Next(c, s, p, Look(t));
    NextStaysApart(c, s, p, Look(t));
    LookFrame(c, s, p, t);
    if q: Tid :| SeesTo(c, s, q, port) {
      if q != p {
        OthersSee(c, s, s', p, q, port);
      } else {
        LookSees(c, s, p, t, port);
      }
    }
    hide WellFormed, PortsFit, Next, SeesTo;
  }

  lemma LookFrame(c: Config, s: State, p: Tid, t: TypeId)
    requires Fits(c, s)
    ensures var s' := Next(c, s, p, Look(t));
      && s'.permits == s.permits && s'.closing == s.closing && s'.deliveries == s.deliveries
      && forall port :: port in s.queues && s.queues[port].items == [] ==> s'.queues[port].items == []
  {
    hide WellFormed, PortsFit, NodeAt;
  }

  lemma LookSees(c: Config, s: State, p: Tid, t: TypeId, port: Port)
    requires Fits(c, s) && PlaceInv(c, s, p) && port in s.queues && SeesTo(c, s, p, port)
    ensures SeesTo(c, Next(c, s, p, Look(t)), p, port) || s.queues[port].items == []
  {
    var pc := PcOf(s, p);
    if pc.Looking? && AtNode(c, p, pc.i) && c.team[p] == c.nodes[port.node].group && pc.i == c.nodes[port.node].pos {
      OneNodePerPosition(c, p, pc.i, port.node);
    }
    hide WellFormed, PortsFit, NodeAt;
  }

  lemma CallKeepsAttended(c: Config, s: State, p: Tid, a: Action, port: Port)
    requires Fits(c, s) && PlaceInv(c, s, p) && port in s.queues && Attended(c, s, port)
    requires a.Emit? || a.Feed? || (a.Go? && p !in c.team) || a.Raise? || a.Release?
    requires DataInv(c, s)
    ensures Attended(c, Next(c, s, p, a), port)
  {
    var s' := Next(c, s, p, a);
    NextStaysApart(c, s, p, a);
    CallFrame(c, s, p, a);
    if q: Tid :| SeesTo(c, s, q, port) {
      if q != p {
        OthersSee(c, s, s', p, q, port);
      } else {
        CallSees(c, s, p, a, port);
      }
    }
    hide WellFormed, PortsFit, Next, SeesTo, QueueInv, HandInv, DeliveryInv;
  }

  lemma CallFrame(c: Config, s: State, p: Tid, a: Action)
    requires Fits(c, s)
    requires a.Emit? || a.Feed? || (a.Go? && p !in c.team) || a.Raise? || a.Release?
    ensures var s' := Next(c, s, p, a);
      && s'.queues == s.queues && s.closing <= s'.closing
      && (forall g: nat :: g < |c.groups| ==> s.permits[g] <= s'.permits[g])
      && |s.deliveries| <= |s'.deliveries|
      && forall d: nat :: d < |s.deliveries| ==> s'.deliveries[d] == s.deliveries[d]
  {
    hide WellFormed, PortsFit, NodeAt;
  }

  lemma CallSees(c: Config, s: State, p: Tid, a: Action, port: Port)
    requires Fits(c, s) && PlaceInv(c, s, p) && port in s.queues && SeesTo(c, s, p, port) && DataInv(c, s)
    requires a.Emit? || a.Feed? || (a.Go? && p !in c.team) || a.Raise? || a.Release?
    ensures SeesTo(c, Next(c, s, p, a), p, port)
  {
    var pc := PcOf(s, p);
    assert Delivers(pc) && pc.d < |s.deliveries| ==> DeliveryInv(c, s, pc.d);
    hide WellFormed, PortsFit, NodeAt, QueueInv, HandInv;
  }

  lemma NextKeepsAttended(c: Config, s: State, p: Tid, a: Action, port: Port)
    requires Fits(c, s) && GatesInv(c, s) && DataInv(c, s)
    requires port in s.queues && Uncapped(c, port.node) && Attended(c, s, port)
    ensures Attended(c, Next(c, s, p, a), port)
  {
    assert PlaceInv(c, s, p);
    hide WellFormed, PortsFit, GatesInv, DataInv, PlaceInv, Attended, WorkerGo;
    match a {
      case Look(t) => LookKeepsAttended(c, s, p, t, port);
      case PushTo(x) => PushKeepsAttended(c, s, p, x, port);
      case Notify(x) => NotifyKeepsAttended(c, s, p, x, port);
      case Go => if p in c.team { GoKeepsAttended(c, s, p, port); } else { CallKeepsAttended(c, s, p, a, port); }
      case _ => CallKeepsAttended(c, s, p, a, port);
    }
  }

  lemma {:induction false} RunKeepsAttended(c: Config, s: State, schedule: seq<(Tid, Action)>, port: Port)
    requires Fits(c, s) && GatesInv(c, s) && DataInv(c, s)
    requires port in s.queues && Uncapped(c, port.node) && Attended(c, s, port)
    ensures port in Run(c, s, schedule).queues && Attended(c, Run(c, s, schedule), port)
    decreases |schedule|
  {
    hide WellFormed, GatesInv, DataInv, Attended, Next, Uncapped;
    if schedule == [] {
    } else {
      var (p, a) := schedule[0];
      NextKeepsGates(c, s, p, a);
      NextKeepsData(c, s, p, a);
      NextKeepsAttended(c, s, p, a, port);
      RunKeepsAttended(c, Next(c, s, p, a), schedule[1..], port);
    }
  }

  /** Data waits, but no permit is there, none is owed, and every worker of the group sleeps. */
  ghost predicate Stranded(c: Config, s: State, port: Port)
    requires Fits(c, s) && port in s.queues
  {
    && Serving(c, s, c.nodes[port.node].group) && s.queues[port].items != [] && s.permits[c.nodes[port.node].group] == 0
    && (forall p: Tid :: !Owes(s, PcOf(s, p), port.node))
    && (forall p: Tid :: p in Workers(c, c.nodes[port.node].group) ==> PcOf(s, p).Parked?)
  }

  /** At a node that admits every worker of its group no data is ever stranded. */
  lemma NothingStranded(c: Config, schedule: seq<(Tid, Action)>, port: Port)
    requires WellFormed(c) && port in Init(c).queues && Uncapped(c, port.node)
    ensures var s := Run(c, Init(c), schedule);
      port in s.queues && Attended(c, s, port) && !Stranded(c, s, port)
  {
    InitGates(c);
    InitData(c);
    InitAttended(c, port);
    RunKeepsAttended(c, Init(c), schedule, port);
    AttendedNotStranded(c, Run(c, Init(c), schedule), port);
    hide *;
  }

  lemma InitAttended(c: Config, port: Port)
    requires WellFormed(c) && port in Init(c).queues
    ensures Attended(c, Init(c), port)
  {
  }

  lemma AttendedNotStranded(c: Config, s: State, port: Port)
    requires Fits(c, s) && port in s.queues && Attended(c, s, port)
    ensures !Stranded(c, s, port)
  {
    hide WellFormed, PortsFit;
  }
}
