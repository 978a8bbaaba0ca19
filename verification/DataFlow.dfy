/**
  The run time of the data-flow graph as a machine over its shared accesses.  Workers of a group
  sleep on the group's semaphore, scan the nodes of the group, and process the queues of the nodes
  that admit them; results and outside data are pushed to the queues of their receivers, and each
  receiver's group is then notified.  Queues are atomic (`TU_LockQueue`).

  The graph is any set of nodes with typed inputs and successors; what an exec function computes
  and how often it calls `tu_result` is left open.
 */
module DataFlow {
  import opened Common

  type TypeId = int

  /** `pos` is the position of the node among the nodes of its group. */
  datatype NodeCfg = NodeCfg(group: nat, pos: nat, cap: nat, isState: bool, types: set<TypeId>,
                             succ: map<TypeId, set<nat>>)

  datatype GroupCfg = GroupCfg(nodes: seq<nat>, batch: nat)

  datatype Config = Config(nodes: seq<NodeCfg>, groups: seq<GroupCfg>, team: map<Tid, nat>,
                           inputs: map<TypeId, set<nat>>)

  /** The receivers of data of type `t` are nodes that take it. */
  predicate Receivers(c: Config, to: set<nat>, t: TypeId) {
    forall x :: x in to ==> x < |c.nodes| && t in c.nodes[x].types
  }

  /** What registering a graph with worker groups establishes. */
  predicate WellFormed(c: Config) {
    && (forall x: nat :: x < |c.nodes| ==> c.nodes[x].group < |c.groups|)
    && (forall x: nat :: x < |c.nodes| ==>
          c.nodes[x].pos < |c.groups[c.nodes[x].group].nodes| && c.groups[c.nodes[x].group].nodes[c.nodes[x].pos] == x)
    && (forall g: nat, i: nat :: g < |c.groups| && i < |c.groups[g].nodes| ==> InGroup(c, g, i))
    && (forall w :: w in c.team ==> c.team[w] < |c.groups|)
    && (forall x: nat, t :: x < |c.nodes| && t in c.nodes[x].succ ==> Receivers(c, c.nodes[x].succ[t], t))
    && (forall t :: t in c.inputs ==> Receivers(c, c.inputs[t], t))
  }

  predicate InGroup(c: Config, g: nat, i: nat)
    requires g < |c.groups| && i < |c.groups[g].nodes|
  {
    && c.groups[g].nodes[i] < |c.nodes|
    && c.nodes[c.groups[g].nodes[i]].group == g && c.nodes[c.groups[g].nodes[i]].pos == i
  }

  function Workers(c: Config, g: nat): set<Tid> { set w | w in c.team && c.team[w] == g }

  function GroupNodes(c: Config, w: Tid): seq<nat>
    requires WellFormed(c) && w in c.team
  {
    c.groups[c.team[w]].nodes
  }

  // ----- the state ----------------------------------------------------------------------------

  /** One typed input queue of a node. */
  datatype Port = Port(node: nat, typ: TypeId)

  /** Where a thread stands: `i` the position scanned, `n` the process count of the pass, `m` of the batch. */
  datatype Pc =
    | Outside
    | Feeding(d: nat)
    | Parked
    | Woken
    | AtLoad(i: nat, n: nat)
    | AtAdd(i: nat, n: nat)
    | Looking(i: nat, n: nat, todo: set<TypeId>, m: nat)
    | Running(i: nat, n: nat, m: nat, port: Port, k: nat)
    | Sending(i: nat, n: nat, m: nat, port: Port, k: nat, d: nat)
    | Leaving(i: nat, n: nat)
    | Stepping(i: nat, n: nat)
    | Stopped

  /** `count` is the node's `thread_count`; the sets are history. */
  datatype Gate = Gate(count: int, inside: set<Tid>, working: set<Tid>)

  datatype Fate = Taken(w: Tid) | Done

  /** A queue; `arrived` and `fates` are history: all data ever pushed, and what became of those popped. */
  datatype Queue = Queue(items: seq<nat>, arrived: seq<nat>, fates: seq<Fate>)

  /** One call of `tu_result` or `tu_dfg_push_data`: its receivers, and those served so far. */
  datatype Delivery = Delivery(typ: TypeId, to: set<nat>, pushed: set<nat>, notified: set<nat>)

  datatype State = State(pcs: map<Tid, Pc>, gates: seq<Gate>, queues: map<Port, Queue>, deliveries: seq<Delivery>,
                         permits: seq<nat>, closing: set<Tid>, released: set<nat>)

  datatype Action =
    | Go                 // the next access of a running thread
    | Look(t: TypeId)    // the next queue a worker tries to pop
    | Emit(t: TypeId)    // the exec function calls `tu_result`
    | Feed(t: TypeId)    // an outside thread calls `tu_dfg_push_data`
    | PushTo(x: nat)     // the next receiver whose queue gets the data
    | Notify(x: nat)     // the next receiver whose group is notified
    | Raise(w: Tid)      // `tu_dfg_term` raises the flag of a worker
    | Release(g: nat)    // and then releases a permit for each worker of the group

  function PcOf(s: State, p: Tid): Pc { if p in s.pcs then s.pcs[p] else Outside }

  function Goto(s: State, p: Tid, pc: Pc): State { s.(pcs := s.pcs[p := pc]) }

  ghost predicate Fits(c: Config, s: State) {
    && WellFormed(c) && |s.gates| == |c.nodes| && |s.permits| == |c.groups|
    && PortsFit(c, s.queues.Keys)
  }

  /** There is a queue for each input of each node. */
  ghost predicate PortsFit(c: Config, ports: set<Port>) {
    forall q: Port :: q in ports <==> q.node < |c.nodes| && q.typ in c.nodes[q.node].types
  }

  function Ports(nodes: seq<NodeCfg>): set<Port> {
    set x: nat, t | x < |nodes| && t in nodes[x].types :: Port(x, t)
  }

  function Init(c: Config): (s: State)
    requires WellFormed(c)
    ensures Fits(c, s)
  {
    State(map w | w in c.team :: Parked, seq(|c.nodes|, _ => Gate(0, {}, {})),
          map q | q in Ports(c.nodes) :: Queue([], [], []), [], seq(|c.groups|, _ => 0), {}, {})
  }

  /** The node that worker `p` is at, when its position is one of the group. */
  predicate AtNode(c: Config, p: Tid, i: nat)
    requires WellFormed(c)
  {
    p in c.team && i < |GroupNodes(c, p)|
  }

  function NodeAt(c: Config, p: Tid, i: nat): (x: nat)
    requires WellFormed(c) && AtNode(c, p, i)
    ensures x < |c.nodes| && c.nodes[x].group == c.team[p] && c.nodes[x].pos == i
  {
    assert InGroup(c, c.team[p], i);
    GroupNodes(c, p)[i]
  }

  function Next(c: Config, s: State, p: Tid, a: Action): (s': State)
    requires Fits(c, s)
    ensures Fits(c, s')
  {
    match a
    case Go => if p in c.team then WorkerGo(c, s, p) else FeederGo(s, p)
    case Look(t) => LookStep(c, s, p, t)
    case Emit(t) => EmitStep(c, s, p, t)
    case Feed(t) =>
      if p !in c.team && PcOf(s, p).Outside? && t in c.inputs then
        Goto(s, p, Feeding(|s.deliveries|)).(deliveries := s.deliveries + [Delivery(t, c.inputs[t], {}, {})])
      else s
    case PushTo(x) => PushStep(c, s, p, x)
    case Notify(x) => NotifyStep(c, s, p, x)
    case Raise(w) =>
      if p !in c.team && PcOf(s, p).Outside? && w in c.team then s.(closing := s.closing + {w}) else s
    case Release(g) =>
      if p !in c.team && PcOf(s, p).Outside? && g < |c.groups| && Workers(c, g) <= s.closing && g !in s.released then
        s.(released := s.released + {g}, permits := s.permits[g := s.permits[g] + |Workers(c, g)|])
      else s
  }

  /** The receivers are served: the call returns. */
  predicate Served(s: State, d: nat) { d < |s.deliveries| && s.deliveries[d].notified == s.deliveries[d].to }

  function FeederGo(s: State, p: Tid): State {
    if PcOf(s, p).Feeding? && Served(s, PcOf(s, p).d) then Goto(s, p, Outside) else s
  }

  function WorkerGo(c: Config, s: State, p: Tid): (s': State)
    requires Fits(c, s) && p in c.team
    ensures Fits(c, s')
  {
    var g := c.team[p];
    match PcOf(s, p)
    case Parked =>
      if s.permits[g] > 0 then Goto(s, p, Woken).(permits := s.permits[g := s.permits[g] - 1]) else s
    case Woken => if p in s.closing then Goto(s, p, Stopped) else Goto(s, p, AtLoad(0, 0))
    case AtLoad(i, n) =>
      if !AtNode(c, p, i) then s
      else
        var x := NodeAt(c, p, i);
        Goto(s, p, if s.gates[x].count < c.nodes[x].cap then AtAdd(i, n) else Stepping(i, n))
    case AtAdd(i, n) => if AtNode(c, p, i) then Enter(c, s, p, i, n) else s
    case Looking(i, n, todo, m) => if todo == {} && AtNode(c, p, i) then Withdraw(c, s, p, i, n) else s
    case Running(i, n, m, port, k) => if AtNode(c, p, i) then Return(c, s, p, i, n, m, port, k) else s
    case Sending(i, n, m, port, k, d) => if Served(s, d) then Goto(s, p, Running(i, n, m, port, k)) else s
    case Leaving(i, n) =>
      if !AtNode(c, p, i) then s
      else
        var x := NodeAt(c, p, i);
        var gate := s.gates[x];
        Goto(s, p, Stepping(i, n)).(
          gates := s.gates[x := gate.(count := gate.count - 1, inside := gate.inside - {p})])
    case Stepping(i, n) =>
      Goto(s, p, if i + 1 < |GroupNodes(c, p)| then AtLoad(i + 1, n) else if n == 0 then Parked else AtLoad(0, 0))
    case _ => s
  }

  /** The `fetch_add` on `thread_count`: it admits the worker if the count was below the cap. */
  function Entered(gate: Gate, cap: nat, p: Tid): Gate {
    Gate(gate.count + 1, gate.inside + {p}, if gate.count < cap then gate.working + {p} else gate.working)
  }

  function Enter(c: Config, s: State, p: Tid, i: nat, n: nat): State
    requires Fits(c, s) && AtNode(c, p, i)
  {
    var x := NodeAt(c, p, i);
    var gate := s.gates[x];
    Goto(s, p, if gate.count < c.nodes[x].cap then Looking(i, n, c.nodes[x].types, 0) else Leaving(i, n)).(
      gates := s.gates[x := Entered(gate, c.nodes[x].cap, p)])
  }

  /** The queues were found empty, or the batch is full: the worker is done with the node. */
  function Withdraw(c: Config, s: State, p: Tid, i: nat, n: nat): State
    requires Fits(c, s) && AtNode(c, p, i)
  {
    var x := NodeAt(c, p, i);
    Goto(s, p, Leaving(i, n)).(gates := s.gates[x := s.gates[x].(working := s.gates[x].working - {p})])
  }

  /** The exec function returns; a state is drained, a task gets at most a batch. */
  function Return(c: Config, s: State, p: Tid, i: nat, n: nat, m: nat, port: Port, k: nat): State
    requires Fits(c, s) && AtNode(c, p, i)
  {
    var x := NodeAt(c, p, i);
    var s1 := SetFate(s, port, k, Done);
    if c.nodes[x].isState || m + 1 < c.groups[c.team[p]].batch then
      Goto(s1, p, Looking(i, n + 1, c.nodes[x].types, m + 1))
    else Withdraw(c, s1, p, i, n + 1)
  }

  function SetFate(s: State, port: Port, k: nat, fate: Fate): (s': State)
    ensures s'.queues.Keys == s.queues.Keys && s' == s.(queues := s'.queues)
  {
    if port in s.queues && k < |s.queues[port].fates| then
      var q := s.queues[port];
      s.(queues := s.queues[port := q.(fates := q.fates[k := fate])])
    else s
  }

  /** A pop of one input queue of the node. */
  function LookStep(c: Config, s: State, p: Tid, t: TypeId): (s': State)
    requires Fits(c, s)
    ensures Fits(c, s')
  {
    match PcOf(s, p)
    case Looking(i, n, todo, m) =>
      if t !in todo || !AtNode(c, p, i) || Port(NodeAt(c, p, i), t) !in s.queues then s
      else
        var port := Port(NodeAt(c, p, i), t);
        var q := s.queues[port];
        if q.items == [] then Goto(s, p, Looking(i, n, todo - {t}, m))
        else Goto(s, p, Running(i, n, m, port, |q.fates|)).(
          queues := s.queues[port := q.(items := q.items[1..], fates := q.fates + [Taken(p)])])
    case _ => s
  }

  /** `tu_result` for a type the node has successors for. */
  function EmitStep(c: Config, s: State, p: Tid, t: TypeId): (s': State)
    requires Fits(c, s)
    ensures Fits(c, s')
  {
    match PcOf(s, p)
    case Running(i, n, m, port, k) =>
      if AtNode(c, p, i) && t in c.nodes[NodeAt(c, p, i)].succ then
        Goto(s, p, Sending(i, n, m, port, k, |s.deliveries|)).(
          deliveries := s.deliveries + [Delivery(t, c.nodes[NodeAt(c, p, i)].succ[t], {}, {})])
      else s
    case _ => s
  }

  predicate Delivers(pc: Pc) { pc.Feeding? || pc.Sending? }

  /**
    May receiver `x` be pushed to now?  `tu_result` pushes to all before it notifies any;
    `tu_dfg_push_data` notifies each receiver before it goes on to the next.
   */
  predicate MayPush(s: State, pc: Pc, x: nat)
    requires Delivers(pc)
  {
    && pc.d < |s.deliveries|
    && var d := s.deliveries[pc.d];
    x in d.to - d.pushed && (pc.Feeding? ==> d.pushed == d.notified)
  }

  predicate MayNotify(s: State, pc: Pc, x: nat)
    requires Delivers(pc)
  {
    && pc.d < |s.deliveries|
    && var d := s.deliveries[pc.d];
    x in d.pushed - d.notified && (pc.Sending? ==> d.pushed == d.to)
  }

  function PushStep(c: Config, s: State, p: Tid, x: nat): (s': State)
    requires Fits(c, s)
    ensures Fits(c, s')
  {
    var pc := PcOf(s, p);
    if !Delivers(pc) || !MayPush(s, pc, x) || Port(x, s.deliveries[pc.d].typ) !in s.queues then s
    else
      var d := s.deliveries[pc.d];
      var port := Port(x, d.typ);
      var q := s.queues[port];
      s.(deliveries := s.deliveries[pc.d := d.(pushed := d.pushed + {x})],
         queues := s.queues[port := q.(items := q.items + [pc.d], arrived := q.arrived + [pc.d])])
  }

  function NotifyStep(c: Config, s: State, p: Tid, x: nat): (s': State)
    requires Fits(c, s)
    ensures Fits(c, s')
  {
    var pc := PcOf(s, p);
    if !Delivers(pc) || !MayNotify(s, pc, x) || x >= |c.nodes| then s
    else
      var d := s.deliveries[pc.d];
      var g := c.nodes[x].group;
      s.(deliveries := s.deliveries[pc.d := d.(notified := d.notified + {x})],
         permits := s.permits[g := s.permits[g] + 1])
  }

  function Run(c: Config, s: State, schedule: seq<(Tid, Action)>): (s': State)
    requires Fits(c, s)
    ensures Fits(c, s')
    decreases |schedule|
  {
    if schedule == [] then s else Run(c, Next(c, s, schedule[0].0, schedule[0].1), schedule[1..])
  }

  // ----- the gates ------------------------------------------------------------------------------

  /** Between the `fetch_add` and the decrement on the gate at position `i`. */
  predicate IsInside(pc: Pc) { pc.Looking? || pc.Running? || pc.Sending? || pc.Leaving? }

  /** Admitted, and not yet done with the node. */
  predicate IsWorking(pc: Pc) { pc.Looking? || pc.Running? || pc.Sending? }

  /** What a gate keeps by itself. */
  ghost predicate Counts(gate: Gate, cap: nat) {
    gate.count == |gate.inside| && |gate.working| <= cap && gate.working <= gate.inside
  }

  ghost predicate GateInv(c: Config, s: State, x: nat)
    requires Fits(c, s) && x < |c.nodes|
  {
    var gate := s.gates[x];
    && Counts(gate, c.nodes[x].cap)
    && (forall p: Tid :: p in gate.inside <==>
          p in c.team && c.team[p] == c.nodes[x].group && IsInside(PcOf(s, p)) && PcOf(s, p).i == c.nodes[x].pos)
    && (forall p: Tid :: p in gate.working <==> p in gate.inside && IsWorking(PcOf(s, p)))
  }

  /** A worker that is at a node is at a position of its group; other threads only feed. */
  ghost predicate PlaceInv(c: Config, s: State, p: Tid)
    requires Fits(c, s)
  {
    var pc := PcOf(s, p);
    if p in c.team then
      !pc.Outside? && !pc.Feeding? && (IsInside(pc) || pc.AtAdd? ==> pc.i < |GroupNodes(c, p)|)
    else pc.Outside? || pc.Feeding?
  }

  ghost predicate OthersStay(s: State, s': State, p: Tid) {
    forall q: Tid :: q != p ==> PcOf(s', q) == PcOf(s, q)
  }

  ghost predicate IsAt(c: Config, s: State, p: Tid, x: nat)
    requires WellFormed(c) && x < |c.nodes|
  {
    p in c.team && c.team[p] == c.nodes[x].group && IsInside(PcOf(s, p)) && PcOf(s, p).i == c.nodes[x].pos
  }

  lemma GateStays(c: Config, s: State, s': State, p: Tid, x: nat)
    requires Fits(c, s) && Fits(c, s') && x < |c.nodes| && GateInv(c, s, x)
    requires s'.gates[x] == s.gates[x] && OthersStay(s, s', p)
    requires IsAt(c, s', p, x) <==> IsAt(c, s, p, x)
    requires IsAt(c, s, p, x) ==> IsWorking(PcOf(s', p)) == IsWorking(PcOf(s, p))
    ensures GateInv(c, s', x)
  {
    hide Fits, WellFormed;
  }

  /** Positions tell the nodes of a group apart. */
  lemma OneNodePerPosition(c: Config, p: Tid, i: nat, x: nat)
    requires WellFormed(c) && AtNode(c, p, i) && x < |c.nodes|
    requires c.nodes[x].group == c.team[p] && c.nodes[x].pos == i
    ensures x == NodeAt(c, p, i)
  {
  }

  /** Below the cap there is room for one more: those at work are among those inside. */
  lemma EnterCounts(gate: Gate, cap: nat, p: Tid)
    requires Counts(gate, cap) && p !in gate.inside
    ensures Counts(Entered(gate, cap, p), cap)
  {
    assert gate.inside == gate.working + (gate.inside - gate.working);
  }

  lemma LeaveCounts(gate: Gate, cap: nat, p: Tid)
    requires Counts(gate, cap) && p in gate.inside && p !in gate.working
    ensures Counts(gate.(count := gate.count - 1, inside := gate.inside - {p}), cap)
  {
  }

  /** Thread `p` comes, goes, or stops working at node `x`. */
  lemma GateChanges(c: Config, s: State, s': State, p: Tid, x: nat)
    requires Fits(c, s) && Fits(c, s') && x < |c.nodes| && GateInv(c, s, x) && OthersStay(s, s', p)
    requires Counts(s'.gates[x], c.nodes[x].cap)
    requires forall q :: q != p ==> (q in s'.gates[x].inside <==> q in s.gates[x].inside)
    requires forall q :: q != p ==> (q in s'.gates[x].working <==> q in s.gates[x].working)
    requires p in s'.gates[x].inside <==> IsAt(c, s', p, x)
    requires p in s'.gates[x].working <==> IsAt(c, s', p, x) && IsWorking(PcOf(s', p))
    ensures GateInv(c, s', x)
  {
    hide WellFormed, PortsFit, Counts;
  }

  lemma EnterOwnGate(c: Config, s: State, p: Tid, x: nat)
    requires Fits(c, s) && p in c.team && PcOf(s, p).AtAdd? && AtNode(c, p, PcOf(s, p).i)
    requires x == NodeAt(c, p, PcOf(s, p).i) && GateInv(c, s, x)
    ensures GateInv(c, Enter(c, s, p, PcOf(s, p).i, PcOf(s, p).n), x)
  {
    hide WellFormed, PortsFit, Counts, NodeAt, AtNode;
    assert p !in s.gates[x].inside;
    EnterCounts(s.gates[x], c.nodes[x].cap, p);
    GateChanges(c, s, Enter(c, s, p, PcOf(s, p).i, PcOf(s, p).n), p, x);
  }

  lemma EnterOtherGate(c: Config, s: State, p: Tid, x: nat)
    requires Fits(c, s) && p in c.team && PcOf(s, p).AtAdd? && AtNode(c, p, PcOf(s, p).i) && x < |c.nodes|
    requires x != NodeAt(c, p, PcOf(s, p).i) && GateInv(c, s, x)
    ensures GateInv(c, Enter(c, s, p, PcOf(s, p).i, PcOf(s, p).n), x)
  {
    hide GateInv;
    var i := PcOf(s, p).i;
    if c.nodes[x].group == c.team[p] && c.nodes[x].pos == i { OneNodePerPosition(c, p, i, x); }
    GateStays(c, s, Enter(c, s, p, i, PcOf(s, p).n), p, x);
  }

  lemma EnterKeepsGates(c: Config, s: State, p: Tid, x: nat)
    requires Fits(c, s) && p in c.team && PcOf(s, p).AtAdd? && AtNode(c, p, PcOf(s, p).i) && x < |c.nodes|
    requires GateInv(c, s, x)
    ensures GateInv(c, Enter(c, s, p, PcOf(s, p).i, PcOf(s, p).n), x)
  {
    if x == NodeAt(c, p, PcOf(s, p).i) {
      EnterOwnGate(c, s, p, x);
    } else {
      EnterOtherGate(c, s, p, x);
    }
  }

  lemma WithdrawKeepsGates(c: Config, s: State, p: Tid, i: nat, n: nat, x: nat)
    requires Fits(c, s) && AtNode(c, p, i) && IsWorking(PcOf(s, p)) && PcOf(s, p).i == i && x < |c.nodes|
    requires GateInv(c, s, x)
    ensures GateInv(c, Withdraw(c, s, p, i, n), x)
  {
    var s' := Withdraw(c, s, p, i, n);
    if x == NodeAt(c, p, i) {
      assert IsAt(c, s, p, x);
    } else {
      if c.nodes[x].group == c.team[p] && c.nodes[x].pos == i { OneNodePerPosition(c, p, i, x); }
      GateStays(c, s, s', p, x);
    }
    hide WellFormed;
  }

  lemma LeaveOwnGate(c: Config, s: State, p: Tid, x: nat)
    requires Fits(c, s) && p in c.team && PcOf(s, p).Leaving? && AtNode(c, p, PcOf(s, p).i)
    requires x == NodeAt(c, p, PcOf(s, p).i) && GateInv(c, s, x)
    ensures GateInv(c, WorkerGo(c, s, p), x)
  {
    hide WellFormed, PortsFit, Counts;
    assert IsAt(c, s, p, x);
    LeaveCounts(s.gates[x], c.nodes[x].cap, p);
  }

  lemma LeaveKeepsGates(c: Config, s: State, p: Tid, x: nat)
    requires Fits(c, s) && p in c.team && PcOf(s, p).Leaving? && AtNode(c, p, PcOf(s, p).i) && x < |c.nodes|
    requires GateInv(c, s, x)
    ensures GateInv(c, WorkerGo(c, s, p), x)
  {
    hide GateInv;
    var i := PcOf(s, p).i;
    if x == NodeAt(c, p, i) {
      LeaveOwnGate(c, s, p, x);
    } else {
      if c.nodes[x].group == c.team[p] && c.nodes[x].pos == i { OneNodePerPosition(c, p, i, x); }
      GateStays(c, s, WorkerGo(c, s, p), p, x);
    }
  }

  /** Steps that neither enter nor leave a node. */
  ghost predicate KeepsGates(s: State, s': State, p: Tid) {
    && s'.gates == s.gates && OthersStay(s, s', p)
    && IsInside(PcOf(s', p)) == IsInside(PcOf(s, p)) && IsWorking(PcOf(s', p)) == IsWorking(PcOf(s, p))
    && (IsInside(PcOf(s, p)) ==> PcOf(s', p).i == PcOf(s, p).i)
  }

  predicate MovesGates(pc: Pc) { pc.AtAdd? || pc.Looking? || pc.Running? || pc.Leaving? }

  lemma OtherGoKeepsGates(c: Config, s: State, p: Tid)
    requires Fits(c, s) && p in c.team && !MovesGates(PcOf(s, p))
    ensures KeepsGates(s, WorkerGo(c, s, p), p)
  {
    hide WellFormed, PortsFit;
  }

  lemma ActionKeepsGates(c: Config, s: State, p: Tid, a: Action)
    requires Fits(c, s) && (a.Go? ==> p !in c.team)
    ensures KeepsGates(s, Next(c, s, p, a), p)
  {
    hide WellFormed, PortsFit;
  }

  lemma WorkerKeepsGates(c: Config, s: State, p: Tid, x: nat)
    requires Fits(c, s) && p in c.team && x < |c.nodes| && GateInv(c, s, x) && PlaceInv(c, s, p)
    ensures GateInv(c, WorkerGo(c, s, p), x)
  {
    match PcOf(s, p) {
      case AtAdd(i, n) => EnterKeepsGates(c, s, p, x);
      case Looking(i, n, todo, m) => if todo == {} { WithdrawKeepsGates(c, s, p, i, n, x); }
      case Running(i, n, m, port, k) => ReturnKeepsGates(c, s, p, x);
      case Leaving(i, n) => LeaveKeepsGates(c, s, p, x);
      case _ =>
    }
    if !MovesGates(PcOf(s, p)) {
      OtherGoKeepsGates(c, s, p);
      GateStays(c, s, WorkerGo(c, s, p), p, x);
    }
    hide WellFormed, PortsFit;
  }

  lemma SameGates(c: Config, s: State, s': State, x: nat)
    requires Fits(c, s) && Fits(c, s') && x < |c.nodes| && GateInv(c, s, x)
    requires s'.pcs == s.pcs && s'.gates == s.gates
    ensures GateInv(c, s', x)
  {
    hide WellFormed, PortsFit;
  }

  lemma ReturnKeepsGates(c: Config, s: State, p: Tid, x: nat)
    requires Fits(c, s) && p in c.team && PcOf(s, p).Running? && AtNode(c, p, PcOf(s, p).i) && x < |c.nodes|
    requires GateInv(c, s, x)
    ensures GateInv(c, WorkerGo(c, s, p), x)
  {
    hide PortsFit, SetFate, GateInv, NodeAt, AtNode, Withdraw;
    var pc := PcOf(s, p);
    var y := NodeAt(c, p, pc.i);
    var s1 := SetFate(s, pc.port, pc.k, Done);
    SameGates(c, s, s1, x);
    if c.nodes[y].isState || pc.m + 1 < c.groups[c.team[p]].batch {
      GateStays(c, s1, WorkerGo(c, s, p), p, x);
    } else {
      WithdrawKeepsGates(c, s1, p, pc.i, pc.n + 1, x);
    }
  }

  ghost predicate GatesInv(c: Config, s: State)
    requires Fits(c, s)
  {
    && (forall x: nat :: x < |c.nodes| ==> GateInv(c, s, x))
    && (forall p: Tid :: PlaceInv(c, s, p))
  }

  lemma NextStaysApart(c: Config, s: State, p: Tid, a: Action)
    requires Fits(c, s)
    ensures OthersStay(s, Next(c, s, p, a), p)
  {
    if a.Go? && p in c.team {
      GoStaysApart(c, s, p);
    }
    hide WellFormed, PortsFit, WorkerGo;
  }

  lemma GoStaysApart(c: Config, s: State, p: Tid)
    requires Fits(c, s) && p in c.team
    ensures OthersStay(s, WorkerGo(c, s, p), p)
  {
    hide WellFormed, PortsFit;
  }

  lemma NextKeepsPlace(c: Config, s: State, p: Tid, a: Action)
    requires Fits(c, s) && PlaceInv(c, s, p)
    ensures PlaceInv(c, Next(c, s, p, a), p)
  {
    if a.Go? && p in c.team {
      GoKeepsPlace(c, s, p);
    }
    hide WellFormed, PortsFit, WorkerGo;
  }

  lemma GoKeepsPlace(c: Config, s: State, p: Tid)
    requires Fits(c, s) && PlaceInv(c, s, p) && p in c.team
    ensures PlaceInv(c, WorkerGo(c, s, p), p)
  {
    hide WellFormed, PortsFit;
  }

  lemma NextKeepsGates(c: Config, s: State, p: Tid, a: Action)
    requires Fits(c, s) && GatesInv(c, s)
    ensures GatesInv(c, Next(c, s, p, a))
  {
    hide WellFormed, PortsFit, WorkerGo, GateInv, PlaceInv;
    var s' := Next(c, s, p, a);
    NextStaysApart(c, s, p, a);
    forall q: Tid ensures PlaceInv(c, s', q) {
      if q == p {
        NextKeepsPlace(c, s, p, a);
      } else {
        SamePlace(c, s, s', q);
      }
    }
    forall x: nat | x < |c.nodes| ensures GateInv(c, s', x) {
      if a.Go? && p in c.team {
        assert PlaceInv(c, s, p);
        WorkerKeepsGates(c, s, p, x);
      } else {
        ActionKeepsGates(c, s, p, a);
        GateStays(c, s, s', p, x);
      }
    }
  }

  lemma SamePlace(c: Config, s: State, s': State, q: Tid)
    requires Fits(c, s) && Fits(c, s') && PlaceInv(c, s, q) && PcOf(s', q) == PcOf(s, q)
    ensures PlaceInv(c, s', q)
  {
  }

  lemma InitGates(c: Config)
    requires WellFormed(c)
    ensures GatesInv(c, Init(c))
  {
  }

  lemma {:induction false} RunKeepsGates(c: Config, s: State, schedule: seq<(Tid, Action)>)
    requires Fits(c, s) && GatesInv(c, s)
    ensures GatesInv(c, Run(c, s, schedule))
    decreases |schedule|
  {
    hide WellFormed, PortsFit, GatesInv, Next;
    if schedule == [] {
    } else {
      NextKeepsGates(c, s, schedule[0].0, schedule[0].1);
      RunKeepsGates(c, Next(c, s, schedule[0].0, schedule[0].1), schedule[1..]);
    }
  }

  /** The workers admitted to node `x`: past the `fetch_add`, not yet done with its queues. */
  function AtWork(c: Config, s: State, x: nat): set<Tid>
    requires Fits(c, s) && x < |c.nodes|
  {
    set p | p in c.team && c.team[p] == c.nodes[x].group && IsWorking(PcOf(s, p)) && PcOf(s, p).i == c.nodes[x].pos
  }

  /** The workers between the `fetch_add` on node `x` and its decrement. */
  function Within(c: Config, s: State, x: nat): set<Tid>
    requires Fits(c, s) && x < |c.nodes|
  {
    set p | p in c.team && c.team[p] == c.nodes[x].group && IsInside(PcOf(s, p)) && PcOf(s, p).i == c.nodes[x].pos
  }

  /**
    The cap holds in every run, despite the racy check before the `fetch_add`: `thread_count` is
    the number of workers between `fetch_add` and decrement, and at most the cap process the node.
   */
  lemma CapHolds(c: Config, schedule: seq<(Tid, Action)>, x: nat)
    requires WellFormed(c) && x < |c.nodes|
    ensures var s := Run(c, Init(c), schedule);
      s.gates[x].count == |Within(c, s, x)| && |AtWork(c, s, x)| <= c.nodes[x].cap
  {
    InitGates(c);
    RunKeepsGates(c, Init(c), schedule);
    var s := Run(c, Init(c), schedule);
    hide WellFormed, PortsFit, Run, Init;
    assert GateInv(c, s, x);
    assert Within(c, s, x) == s.gates[x].inside && AtWork(c, s, x) == s.gates[x].working;
  }

  /** A state node, created with cap one, is processed by one worker at a time. */
  lemma StatesExclude(c: Config, schedule: seq<(Tid, Action)>, x: nat, p: Tid, q: Tid)
    requires WellFormed(c) && x < |c.nodes| && c.nodes[x].cap == 1
    requires var s := Run(c, Init(c), schedule); p in AtWork(c, s, x) && q in AtWork(c, s, x)
    ensures p == q
  {
    hide *;
    CapHolds(c, schedule, x);
    var a := AtWork(c, Run(c, Init(c), schedule), x);
    if p != q {
      TwoElements(a, p, q);
    }
  }

  lemma TwoElements(a: set<Tid>, p: Tid, q: Tid)
    requires p in a && q in a && p != q
    ensures |a| >= 2
  {
    assert a == {p, q} + (a - {p, q});
  }
}
