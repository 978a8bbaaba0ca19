/**
  A node that does not admit every worker of its group can be left with data nobody comes for:
  for any graph, any queue that data can come to, and any cap smaller than the group, there is a run
  that leaves data there, unless the node is a state that only feeds the queue itself.
 */
module DataFlowStranding {
  import opened Common
  import opened DataFlow
  import opened DataFlowWake
  import opened DataFlowDrive
  import opened DataFlowReach

  // ----- deliveries ----------------------------------------------------------------------------

  /** The state of a delivery under way: receivers pushed to have data, groups notified have a permit. */
  ghost predicate Handing(c: Config, s: State, d: nat, t: TypeId, ends: set<nat>)
    requires Fits(c, s)
  {
    && d < |s.deliveries| && s.deliveries[d].typ == t && s.deliveries[d].to == ends
    && s.deliveries[d].notified <= s.deliveries[d].pushed <= ends
    && (forall z :: z in s.deliveries[d].pushed ==> Items(s, Port(z, t)) != [])
    && (forall z :: z in s.deliveries[d].notified ==> Signalled(c, s, z))
  }

  ghost predicate Signalled(c: Config, s: State, z: nat)
    requires Fits(c, s)
  {
    z < |c.nodes| && s.permits[c.nodes[z].group] > 0
  }

  lemma PushOne(c: Config, s: State, p: Tid, d: nat, t: TypeId, ends: set<nat>, z: nat)
    requires Fits(c, s) && Handing(c, s, d, t, ends) && Receivers(c, ends, t)
    requires Delivers(PcOf(s, p)) && PcOf(s, p).d == d && MayPush(s, PcOf(s, p), z)
    ensures var s' := Next(c, s, p, PushTo(z));
      && Handing(c, s', d, t, ends) && s'.pcs == s.pcs && s'.closing == s.closing
      && s'.deliveries[d] == s.deliveries[d].(pushed := s.deliveries[d].pushed + {z})
  {
    assert Port(z, t) in s.queues.Keys;
    hide WellFormed;
  }

  lemma NotifyOne(c: Config, s: State, p: Tid, d: nat, t: TypeId, ends: set<nat>, z: nat)
    requires Fits(c, s) && Handing(c, s, d, t, ends) && Receivers(c, ends, t)
    requires Delivers(PcOf(s, p)) && PcOf(s, p).d == d && MayNotify(s, PcOf(s, p), z)
    ensures var s' := Next(c, s, p, Notify(z));
      && Handing(c, s', d, t, ends) && s'.pcs == s.pcs && s'.closing == s.closing
      && s'.deliveries[d] == s.deliveries[d].(notified := s.deliveries[d].notified + {z})
  {
    hide PortsFit;
  }

  lemma SomeLeft(a: set<nat>, b: set<nat>)
    requires a <= b && a != b
    ensures b - a != {}
  {
    if b - a == {} {
      forall z | z in b ensures z in a {
        assert z !in b - a;
      }
    }
  }

  /** A delivery under way can be completed, while nobody else moves. */
  lemma {:induction false} Completes(c: Config, s: State, p: Tid, d: nat, t: TypeId, ends: set<nat>) returns (s': State)
    requires Fits(c, s) && Handing(c, s, d, t, ends) && Receivers(c, ends, t)
    requires Delivers(PcOf(s, p)) && PcOf(s, p).d == d
    ensures Fits(c, s') && Reach(c, s, s') && Handing(c, s', d, t, ends) && s'.pcs == s.pcs && s'.closing == s.closing
    ensures s'.deliveries[d].notified == s'.deliveries[d].pushed == ends
    decreases ends - s.deliveries[d].pushed, ends - s.deliveries[d].notified
  {
    hide WellFormed, PortsFit, Reach, Receivers, Next;
    var e := s.deliveries[d];
    if e.notified == ends {
      s' := s;
      ReachSelf(c, s);
    } else if e.pushed != e.notified && (PcOf(s, p).Sending? ==> e.pushed == ends) {
      SomeLeft(e.notified, e.pushed);
      var z := Any(e.pushed - e.notified);
      NotifyOne(c, s, p, d, t, ends, z);
      ReachStep(c, s, p, Notify(z));
      s' := Completes(c, Next(c, s, p, Notify(z)), p, d, t, ends);
      ReachTrans(c, s, Next(c, s, p, Notify(z)), s');
    } else {
      SomeLeft(e.pushed, ends);
      var z := Any(ends - e.pushed);
      PushOne(c, s, p, d, t, ends, z);
      ReachStep(c, s, p, PushTo(z));
      s' := Completes(c, Next(c, s, p, PushTo(z)), p, d, t, ends);
      ReachTrans(c, s, Next(c, s, p, PushTo(z)), s');
    }
  }

  /** Data of type `t` waits at every receiver, and its group has a permit. */
  ghost predicate Supplied(c: Config, s: State, t: TypeId, ends: set<nat>)
    requires Fits(c, s)
  {
    forall z :: z in ends ==> Items(s, Port(z, t)) != [] && Signalled(c, s, z)
  }

  lemma CompleteIsSupplied(c: Config, s: State, s': State, d: nat, t: TypeId, ends: set<nat>)
    requires Fits(c, s) && Fits(c, s') && Handing(c, s, d, t, ends) && s.deliveries[d].notified == ends
    requires s'.queues == s.queues && s'.permits == s.permits
    ensures Supplied(c, s', t, ends)
  {
    hide WellFormed, PortsFit;
  }

  lemma BeginCall(c: Config, s: State, p: Tid, a: Action)
    requires Fits(c, s)
    requires
      || (a.Feed? && p !in c.team && PcOf(s, p).Outside? && a.t in c.inputs)
      || (a.Emit? && p in c.team && PcOf(s, p).Running? && AtNode(c, p, PcOf(s, p).i)
          && a.t in c.nodes[NodeAt(c, p, PcOf(s, p).i)].succ)
    ensures
      var s' := Next(c, s, p, a); var d := |s.deliveries|;
      var ends := if a.Feed? then c.inputs[a.t] else c.nodes[NodeAt(c, p, PcOf(s, p).i)].succ[a.t];
      && Receivers(c, ends, a.t) && Handing(c, s', d, a.t, ends) && s'.closing == s.closing
      && var pc, pc' := PcOf(s, p), PcOf(s', p);
      if a.Feed? then pc' == Feeding(d) else pc' == Sending(pc.i, pc.n, pc.m, pc.port, pc.k, d)
  {
    hide PortsFit;
  }

  lemma EndCall(c: Config, s: State, p: Tid)
    requires Fits(c, s) && Delivers(PcOf(s, p)) && Served(s, PcOf(s, p).d)
    requires p in c.team <==> PcOf(s, p).Sending?
    ensures var s' := Next(c, s, p, Go); var pc := PcOf(s, p);
      && s'.queues == s.queues && s'.permits == s.permits && s'.closing == s.closing
      && PcOf(s', p) == if pc.Feeding? then Outside else Running(pc.i, pc.n, pc.m, pc.port, pc.k)
  {
    hide WellFormed, PortsFit;
  }

  /** One call of `tu_dfg_push_data`, or of `tu_result`, from beginning to end. */
  lemma Calls(c: Config, s: State, still: map<Tid, Pc>, p: Tid, a: Action, ends: set<nat>) returns (s': State)
    requires Calm(c, s, still, {p})
    requires
      || (a.Feed? && p !in c.team && PcOf(s, p).Outside? && a.t in c.inputs && ends == c.inputs[a.t])
      || (a.Emit? && p in c.team && PcOf(s, p).Running? && AtNode(c, p, PcOf(s, p).i)
          && a.t in c.nodes[NodeAt(c, p, PcOf(s, p).i)].succ && ends == c.nodes[NodeAt(c, p, PcOf(s, p).i)].succ[a.t])
    ensures Calm(c, s', still, {p}) && Reach(c, s, s') && PcOf(s', p) == PcOf(s, p) && Supplied(c, s', a.t, ends)
  {
    var d := |s.deliveries|;
    var s1 := Next(c, s, p, a);
    OneStep(c, s, p, a);
    BeginCall(c, s, p, a);
    var s2 := Completes(c, s1, p, d, a.t, ends);
    s' := Next(c, s2, p, Go);
    OneStep(c, s2, p, Go);
    EndCall(c, s2, p);
    CompleteIsSupplied(c, s2, s', d, a.t, ends);
    ReachTrans(c, s, s1, s2);
    ReachTrans(c, s, s2, s');
    StaysCalm(c, s, s', still, p);
    hide WellFormed, PortsFit, Next, Reach, Handing, Supplied, GatesInv, AtRest, NodeAt, AtNode, Receivers;
  }

  // ----- workers wake, stop and go on --------------------------------------------------------------------

  /** The last one to move stands still, or rests. */
  lemma AllRest(c: Config, s: State, still: map<Tid, Pc>, p: Tid)
    requires Calm(c, s, still, {p}) && AtRest(c, still, p, PcOf(s, p))
    ensures Calm(c, s, still, {})
  {
    hide WellFormed, PortsFit, GatesInv, AtRest;
  }

  lemma StandsStill(c: Config, s: State, still: map<Tid, Pc>, w: Tid) returns (still': map<Tid, Pc>)
    requires Calm(c, s, still, {w}) && w in c.team && w !in still
    ensures still' == still[w := PcOf(s, w)] && Calm(c, s, still', {})
  {
    still' := still[w := PcOf(s, w)];
    hide WellFormed, PortsFit, GatesInv;
  }

  lemma Resumes(c: Config, s: State, still: map<Tid, Pc>, w: Tid)
    requires Calm(c, s, still, {}) && w in still && Scans(c, w, still[w])
    ensures Alone(c, s, still - {w}, w) && PcOf(s, w) == still[w]
  {
    assert AtRest(c, still, w, PcOf(s, w));
    hide WellFormed, PortsFit, GatesInv, Scans;
  }

  lemma ParkedRests(c: Config, still: map<Tid, Pc>, w: Tid, pc: Pc)
    requires w in c.team && w !in still && pc.Parked?
    ensures AtRest(c, still, w, pc)
  {
  }

  /** A sleeping worker takes a permit. */
  lemma Wakes(c: Config, s: State, still: map<Tid, Pc>, y: nat, w: Tid) returns (s': State)
    requires Calm(c, s, still, {}) && y < |c.nodes| && w in Workers(c, c.nodes[y].group) && w !in still
    requires s.permits[c.nodes[y].group] > 0
    ensures Alone(c, s', still, w) && Reach(c, s, s') && PcOf(s', w).Woken? && s'.queues == s.queues
    ensures s'.permits == s.permits[c.nodes[y].group := s.permits[c.nodes[y].group] - 1]
  {
    assert AtRest(c, still, w, PcOf(s, w));
    s' := Next(c, s, w, Go);
    OneStep(c, s, w, Go);
    assert Calm(c, s, still, {w});
    StaysCalm(c, s, s', still, w);
    assert c.nodes[y].pos < |GroupNodes(c, w)|;
    hide PortsFit, GatesInv, Reach, AtRest;
  }

  // ----- along a way -----------------------------------------------------------------------------------------

  /** Outside data of type `t` comes in. */
  lemma Feeds(c: Config, s: State, still: map<Tid, Pc>, t: TypeId) returns (s': State)
    requires Calm(c, s, still, {}) && t in c.inputs
    ensures Calm(c, s', still, {}) && Reach(c, s, s') && Supplied(c, s', t, c.inputs[t])
  {
    var f := Outsider(c.team.Keys);
    assert AtRest(c, still, f, PcOf(s, f));
    s' := Calls(c, s, still, f, Feed(t), c.inputs[t]);
    AllRest(c, s', still, f);
    hide WellFormed, PortsFit, GatesInv, Reach, Supplied;
  }

  lemma {:induction false} Outsider(a: set<Tid>) returns (f: Tid)
    ensures forall p :: p in a ==> p < f
  {
    if a == {} {
      f := 0;
    } else {
      var p := Any(a);
      var rest := Outsider(a - {p});
      f := if p < rest then rest else p + 1;
      forall q | q in a ensures q < f {
        assert q == p || q in a - {p};
      }
    }
  }

  /** Node `y` is open, and its group has a worker that does not stand still. */
  predicate Ready(c: Config, still: map<Tid, Pc>, y: nat) {
    y < |c.nodes| && Admits(c, still, y) && Workers(c, c.nodes[y].group) - still.Keys != {}
  }

  /** A worker is woken and comes to execute a datum of queue `q`. */
  lemma WakesAndFetches(c: Config, s: State, still: map<Tid, Pc>, q: Port) returns (s': State, w: Tid)
    requires Calm(c, s, still, {}) && Ready(c, still, q.node)
    requires q.typ in c.nodes[q.node].types && Items(s, q) != [] && Signalled(c, s, q.node)
    ensures Alone(c, s', still, w) && Reach(c, s, s') && PcOf(s', w).Running? && NodeAt(c, w, PcOf(s', w).i) == q.node
  {
    w := Any(Workers(c, c.nodes[q.node].group) - still.Keys);
    var s1 := Wakes(c, s, still, q.node, w);
    s' := Fetches(c, s1, still, w, q);
    ReachTrans(c, s, s1, s');
    hide WellFormed, PortsFit, GatesInv, Reach, Scans, AtRest, Admits;
  }

  /** A worker that executes at one node of a way sends data on, and a worker executes at the next. */
  lemma GoesOn(c: Config, s: State, still: map<Tid, Pc>, w: Tid, q: Port, q': Port) returns (s': State, w': Tid)
    requires Alone(c, s, still, w) && PcOf(s, w).Running?
    requires Passes(c, q, q') && NodeAt(c, w, PcOf(s, w).i) == q.node
    requires Ready(c, still, q'.node) && q'.typ in c.nodes[q'.node].types
    ensures Alone(c, s', still, w') && Reach(c, s, s') && PcOf(s', w').Running?
    ensures NodeAt(c, w', PcOf(s', w').i) == q'.node
  {
    hide WellFormed, PortsFit, GatesInv, Reach, AtRest, Bound, Admits;
    var s1 := Calls(c, s, still, w, Emit(q'.typ), c.nodes[q.node].succ[q'.typ]);
    assert Alone(c, s1, still, w);
    if c.nodes[q'.node].group == c.team[w] {
      RunningIsBound(PcOf(s1, w), c.nodes[q'.node].pos, q'.typ);
      s' := Fetches(c, s1, still, w, q');
      w' := w;
      ReachTrans(c, s, s1, s');
    } else {
      var s2 := Parks(c, s1, still, w);
      ReachTrans(c, s, s1, s2);
      ParkedRests(c, still, w, PcOf(s2, w));
      AllRest(c, s2, still, w);
      s', w' := WakesAndFetches(c, s2, still, q');
      ReachTrans(c, s, s2, s');
    }
  }

  lemma RunningIsBound(pc: Pc, pos: nat, t: TypeId)
    requires pc.Running?
    ensures Bound(pc, pos, t)
  {
  }

  /** Along a way a worker comes to execute at any node before the end. */
  lemma {:induction false} Carries(c: Config, s: State, still: map<Tid, Pc>, way: seq<Port>, port: Port, i: nat)
    returns (s': State, w: Tid)
    requires Calm(c, s, still, {}) && Leads(c, way, port) && i < |way| - 1
    requires forall j :: 0 <= j < |way| - 1 ==> Ready(c, still, way[j].node)
    ensures Alone(c, s', still, w) && Reach(c, s, s') && PcOf(s', w).Running?
    ensures NodeAt(c, w, PcOf(s', w).i) == way[i].node
    decreases i
  {
    hide WellFormed, PortsFit, GatesInv, Reach, AtRest, Scans, Ready;
    WayFits(c, way, port, i);
    if i == 0 {
      var s1 := Feeds(c, s, still, way[0].typ);
      s', w := WakesAndFetches(c, s1, still, way[0]);
      ReachTrans(c, s, s1, s');
    } else {
      var s1, w1 := Carries(c, s, still, way, port, i - 1);
      assert Passes(c, way[i - 1], way[i]);
      s', w := GoesOn(c, s1, still, w1, way[i - 1], way[i]);
      ReachTrans(c, s, s1, s');
    }
  }

  // ----- filling a node ------------------------------------------------------------------------------------

  /** A worker that stands at a node and can send data to `port`. */
  ghost predicate Emits(c: Config, still: map<Tid, Pc>, v: Tid, port: Port)
    requires WellFormed(c)
  {
    && v in still && v in c.team && still[v].Running? && AtNode(c, v, still[v].i)
    && port.typ in c.nodes[NodeAt(c, v, still[v].i)].succ
    && port.node in c.nodes[NodeAt(c, v, still[v].i)].succ[port.typ]
  }

  /** Where data for `port` come from: such a worker, or the outside. */
  ghost predicate IsSource(c: Config, still: map<Tid, Pc>, source: Option<Tid>, port: Port)
    requires WellFormed(c)
  {
    match source
    case None => IsInput(c, port)
    case Some(v) => Emits(c, still, v, port)
  }

  /** A datum comes to `port`, and a permit to its group. */
  lemma Supplies(c: Config, s: State, still: map<Tid, Pc>, source: Option<Tid>, port: Port) returns (s': State)
    requires Calm(c, s, still, {}) && IsSource(c, still, source, port)
    ensures Calm(c, s', still, {}) && Reach(c, s, s') && Items(s', port) != [] && Signalled(c, s', port.node)
  {
    hide WellFormed, PortsFit, GatesInv, Reach, Signalled;
    match source {
      case None =>
        s' := Feeds(c, s, still, port.typ);
      case Some(v) =>
        assert AtRest(c, still, v, PcOf(s, v));
        assert Calm(c, s, still, {v});
        s' := Calls(c, s, still, v, Emit(port.typ), c.nodes[NodeAt(c, v, still[v].i)].succ[port.typ]);
        AllRest(c, s', still, v);
    }
  }

  /** The new ones stand idle in node `x`; the others have not moved. */
  ghost predicate MoreIdle(c: Config, still: map<Tid, Pc>, still': map<Tid, Pc>, x: nat)
    requires x < |c.nodes|
  {
    && still.Keys <= still'.Keys && (forall t :: t in still ==> still'[t] == still[t])
    && (forall t :: t in still' && t !in still ==> t in At(c, still', x) && Idle(still'[t], c.nodes[x].pos))
  }

  lemma IdleTrans(c: Config, still: map<Tid, Pc>, still1: map<Tid, Pc>, still2: map<Tid, Pc>, x: nat)
    requires x < |c.nodes| && MoreIdle(c, still, still1, x) && MoreIdle(c, still1, still2, x)
    ensures MoreIdle(c, still, still2, x)
  {
    forall t | t in still2 && t !in still ensures t in At(c, still2, x) && Idle(still2[t], c.nodes[x].pos) {
      if t in still1 { assert t in At(c, still1, x); }
    }
  }

  lemma OneMoreKey(still: map<Tid, Pc>, w: Tid, pc: Pc)
    requires w !in still
    ensures |still[w := pc]| == |still| + 1
  {
    assert still[w := pc].Keys == still.Keys + {w};
  }

  lemma OneMoreAt(c: Config, still: map<Tid, Pc>, w: Tid, pc: Pc, x: nat)
    requires x < |c.nodes| && w !in still && w in Workers(c, c.nodes[x].group) && IsInside(pc) && pc.i == c.nodes[x].pos
    ensures At(c, still[w := pc], x) == At(c, still, x) + {w} && w !in At(c, still, x)
  {
  }

  lemma MoreAt(c: Config, still: map<Tid, Pc>, w: Tid, pc: Pc, x: nat)
    requires x < |c.nodes| && w !in still && w in Workers(c, c.nodes[x].group) && Idle(pc, c.nodes[x].pos)
    ensures |At(c, still[w := pc], x)| == |At(c, still, x)| + 1 && |still[w := pc]| == |still| + 1
    ensures MoreIdle(c, still, still[w := pc], x)
  {
    OneMoreKey(still, w, pc);
    OneMoreAt(c, still, w, pc, x);
    hide Workers, At;
  }

  lemma SomeFree(still: set<Tid>, all: set<Tid>)
    requires |still| < |all|
    ensures all - still != {}
  {
    if all - still == {} {
      assert all <= still by {
        forall z | z in all ensures z in still {
          assert z !in all - still;
        }
      }
      SubsetSize(all, still);
    }
  }

  lemma StillASource(c: Config, still: map<Tid, Pc>, still': map<Tid, Pc>, source: Option<Tid>, port: Port)
    requires WellFormed(c) && IsSource(c, still, source, port)
    requires port.node < |c.nodes| && MoreIdle(c, still, still', port.node)
    ensures IsSource(c, still', source, port)
  {
    hide WellFormed, NodeAt, AtNode;
  }

  /** One more worker is brought into the node, and has nothing to do there. */
  lemma FillsOneMore(c: Config, s: State, still: map<Tid, Pc>, source: Option<Tid>, port: Port)
    returns (s': State, still': map<Tid, Pc>)
    requires Calm(c, s, still, {}) && IsSource(c, still, source, port) && port.node < |c.nodes|
    requires Admits(c, still, port.node) && |still| < |Workers(c, c.nodes[port.node].group)|
    ensures Calm(c, s', still', {}) && Reach(c, s, s') && MoreIdle(c, still, still', port.node)
    ensures |At(c, still', port.node)| == |At(c, still, port.node)| + 1 && |still'| == |still| + 1
  {
    hide WellFormed, PortsFit, GatesInv, Reach, AtRest, Idle, Admits, IsSource, MoreIdle;
    var x := port.node;
    SomeFree(still.Keys, Workers(c, c.nodes[x].group));
    var w := Any(Workers(c, c.nodes[x].group) - still.Keys);
    var s1 := Supplies(c, s, still, source, port);
    var s2 := Wakes(c, s1, still, x, w);
    ReachTrans(c, s, s1, s2);
    s' := ComesInside(c, s2, still, w, x);
    ReachTrans(c, s, s2, s');
    MoreAt(c, still, w, PcOf(s', w), x);
    still' := StandsStill(c, s', still, w);
  }

  /** Workers can be brought into the node one after the other, until it is full. */
  lemma {:induction false} FillUp(c: Config, s: State, still: map<Tid, Pc>, source: Option<Tid>, port: Port)
    returns (s': State, still': map<Tid, Pc>)
    requires Calm(c, s, still, {}) && IsSource(c, still, source, port) && port.node < |c.nodes|
    requires |At(c, still, port.node)| <= c.nodes[port.node].cap < |Workers(c, c.nodes[port.node].group)|
    requires |still| <= |At(c, still, port.node)| + 1
    ensures Calm(c, s', still', {}) && Reach(c, s, s') && MoreIdle(c, still, still', port.node)
    ensures |At(c, still', port.node)| == c.nodes[port.node].cap && IsSource(c, still', source, port)
    decreases c.nodes[port.node].cap - |At(c, still, port.node)|
  {
    hide WellFormed, PortsFit, GatesInv, Reach, AtRest, IsSource, MoreIdle, At;
    if |At(c, still, port.node)| == c.nodes[port.node].cap {
      s', still' := s, still;
      ReachSelf(c, s);
      NoMoreIdle(c, still, port.node);
    } else {
      var s1, still1 := FillsOneMore(c, s, still, source, port);
      StillASource(c, still, still1, source, port);
      s', still' := FillUp(c, s1, still1, source, port);
      ReachTrans(c, s, s1, s');
      IdleTrans(c, still, still1, still', port.node);
    }
  }

  lemma NoMoreIdle(c: Config, still: map<Tid, Pc>, x: nat)
    requires x < |c.nodes|
    ensures MoreIdle(c, still, still, x)
  {
  }

  // ----- leaving the data behind ---------------------------------------------------------------------------

  /** A worker takes a permit, finds node `x` full, and goes back to sleep. */
  lemma TurnedAway(c: Config, s: State, still: map<Tid, Pc>, x: nat) returns (s': State)
    requires Calm(c, s, still, {}) && Crowd(c, still, x) && !Admits(c, still, x)
    requires |still| < |Workers(c, c.nodes[x].group)| && s.permits[c.nodes[x].group] > 0
    ensures Calm(c, s', still, {}) && Reach(c, s, s') && Untouched(s, s', x) && Cleared(c, s', x)
    ensures s'.permits[c.nodes[x].group] == s.permits[c.nodes[x].group] - 1
  {
    hide PortsFit, GatesInv, Reach, AtRest, Cleared, Admits, At;
    SomeFree(still.Keys, Workers(c, c.nodes[x].group));
    var w := Any(Workers(c, c.nodes[x].group) - still.Keys);
    var s1 := Wakes(c, s, still, x, w);
    s' := ParksOutside(c, s1, still, w, x);
    ReachTrans(c, s, s1, s');
    ParkedRests(c, still, w, PcOf(s', w));
    AllRest(c, s', still, w);
  }

  lemma {:induction false} UsePermits(c: Config, s: State, still: map<Tid, Pc>, x: nat) returns (s': State)
    requires Calm(c, s, still, {}) && Crowd(c, still, x) && !Admits(c, still, x)
    requires |still| < |Workers(c, c.nodes[x].group)| && s.permits[c.nodes[x].group] > 0
    ensures Calm(c, s', still, {}) && Reach(c, s, s') && Untouched(s, s', x) && Cleared(c, s', x)
    ensures s'.permits[c.nodes[x].group] == 0
    decreases s.permits[c.nodes[x].group]
  {
    hide PortsFit, GatesInv, Reach, AtRest, Cleared, Admits, At;
    s' := TurnedAway(c, s, still, x);
    if s'.permits[c.nodes[x].group] == 0 {
    } else {
      var s1 := s';
      s' := UsePermits(c, s1, still, x);
      ReachTrans(c, s, s1, s');
    }
  }

  /** Those inside have nothing more to do there, and have executed nothing in this pass. */
  ghost predicate AllPast(c: Config, still: map<Tid, Pc>, x: nat) {
    Crowd(c, still, x) && forall t :: t in still ==> Past(still[t], c.nodes[x].pos)
  }

  lemma OneFewerPast(c: Config, still: map<Tid, Pc>, x: nat, w: Tid)
    requires WellFormed(c) && AllPast(c, still, x) && w in still
    ensures AllPast(c, still - {w}, x) && w in c.team && c.team[w] == c.nodes[x].group && Scans(c, w, still[w])
    ensures Past(still[w], c.nodes[x].pos)
  {
    assert w in At(c, still, x);
    assert c.nodes[x].pos < |GroupNodes(c, w)|;
    forall p ensures p in At(c, still - {w}, x) <==> p in (still - {w}).Keys {
      assert p in still ==> p in At(c, still, x);
    }
  }

  /** The workers inside leave one after the other, and sleep. */
  lemma {:induction false} AllLeave(c: Config, s: State, still: map<Tid, Pc>, x: nat) returns (s': State)
    requires Calm(c, s, still, {}) && AllPast(c, still, x) && Cleared(c, s, x)
    ensures Calm(c, s', map[], {}) && Reach(c, s, s') && Untouched(s, s', x) && s'.permits == s.permits
    decreases still.Keys
  {
    hide WellFormed, PortsFit, GatesInv, Reach, AtRest, Past, At, Scans;
    if still.Keys == {} {
      assert still == map[];
      s' := s;
      ReachSelf(c, s);
    } else {
      var w := Any(still.Keys);
      OneFewerPast(c, still, x, w);
      Resumes(c, s, still, w);
      var s1 := Sleeps(c, s, still - {w}, w, x);
      ParkedRests(c, still - {w}, w, PcOf(s1, w));
      AllRest(c, s1, still - {w}, w);
      s' := AllLeave(c, s1, still - {w}, x);
      ReachTrans(c, s, s1, s');
    }
  }

  lemma SleepIsStranded(c: Config, s: State, port: Port)
    requires Calm(c, s, map[], {}) && port.node < |c.nodes| && Items(s, port) != []
    requires s.permits[c.nodes[port.node].group] == 0
    ensures port in s.queues && Stranded(c, s, port)
  {
    forall p: Tid ensures !Owes(s, PcOf(s, p), port.node) {
      assert AtRest(c, map[], p, PcOf(s, p));
    }
    forall p: Tid | p in Workers(c, c.nodes[port.node].group) ensures PcOf(s, p).Parked? {
      assert AtRest(c, map[], p, PcOf(s, p));
    }
    hide WellFormed, PortsFit, GatesInv;
  }

  /** With the node full, data in its queue and a permit to be had, everybody can go to sleep. */
  lemma LeavesBehind(c: Config, s: State, still: map<Tid, Pc>, port: Port) returns (s': State)
    requires Calm(c, s, still, {}) && AllPast(c, still, port.node) && !Admits(c, still, port.node)
    requires |still| < |Workers(c, c.nodes[port.node].group)| && Signalled(c, s, port.node) && Items(s, port) != []
    ensures Reach(c, s, s') && Fits(c, s') && port in s'.queues && Stranded(c, s', port)
  {
    hide WellFormed, PortsFit, GatesInv, Reach, AtRest, Cleared, Stranded, Workers, Admits, At, Past;
    var x := port.node;
    var s1 := UsePermits(c, s, still, x);
    s' := AllLeave(c, s1, still, x);
    ReachTrans(c, s, s1, s');
    SleepIsStranded(c, s', port);
  }

  // ----- data from outside, or from another node --------------------------------------------------------

  lemma InitIsCalm(c: Config)
    requires WellFormed(c)
    ensures Calm(c, Init(c), map[], {}) && Reach(c, Init(c), Init(c))
  {
    InitGates(c);
    ReachSelf(c, Init(c));
    hide WellFormed, GatesInv;
  }

  lemma IdleArePast(c: Config, still: map<Tid, Pc>, still': map<Tid, Pc>, x: nat)
    requires x < |c.nodes| && MoreIdle(c, still, still', x)
    ensures AllPast(c, still' - still.Keys, x)
  {
    var rest := still' - still.Keys;
    forall t ensures t in At(c, rest, x) <==> t in rest.Keys {
      assert t in rest ==> t in At(c, still', x);
    }
  }

  /** A queue that outside data is pushed to. */
  lemma InputStrands(c: Config, port: Port) returns (s: State)
    requires WellFormed(c) && IsInput(c, port) && port.node < |c.nodes|
    requires c.nodes[port.node].cap < |Workers(c, c.nodes[port.node].group)|
    ensures Reach(c, Init(c), s) && Fits(c, s) && port in s.queues && Stranded(c, s, port)
  {
    hide WellFormed, PortsFit, GatesInv, Init, Reach, AtRest, Stranded, Workers, Signalled, MoreIdle, IsInput, Past;
    InitIsCalm(c);
    var none: map<Tid, Pc> := map[];
    assert At(c, none, port.node) == {};
    var s1, still := FillUp(c, Init(c), none, None, port);
    var s2 := Supplies(c, s1, still, None, port);
    ReachTrans(c, Init(c), s1, s2);
    IdleArePast(c, none, still, port.node);
    assert still - none.Keys == still;
    s := LeavesBehind(c, s2, still, port);
    ReachTrans(c, Init(c), s2, s);
  }

  /** The worker that brought the data goes to sleep; it does not take them, as the node is full. */
  lemma Withdraws(c: Config, s: State, still: map<Tid, Pc>, v: Tid, port: Port) returns (s': State)
    requires Alone(c, s, still, v) && PcOf(s, v).Running? && NodeAt(c, v, PcOf(s, v).i) != port.node
    requires Crowd(c, still, port.node) && !Admits(c, still, port.node)
    ensures Calm(c, s', still, {}) && Reach(c, s, s') && s'.permits == s.permits && Items(s', port) == Items(s, port)
  {
    hide WellFormed, PortsFit, GatesInv, Reach, AtRest, Bound, Admits, At;
    if c.team[v] == c.nodes[port.node].group {
      RunningElsewhere(c, s, port.node, v);
      s' := ParksOutside(c, s, still, v, port.node);
    } else {
      s' := Parks(c, s, still, v);
    }
    ParkedRests(c, still, v, PcOf(s', v));
    AllRest(c, s', still, v);
  }

  lemma RunningElsewhere(c: Config, s: State, x: nat, w: Tid)
    requires WellFormed(c) && w in c.team && PcOf(s, w).Running? && AtNode(c, w, PcOf(s, w).i) && x < |c.nodes|
    requires NodeAt(c, w, PcOf(s, w).i) != x && c.team[w] == c.nodes[x].group
    ensures Outdoors(PcOf(s, w), c.nodes[x].pos) && Swept(c, s, x, PcOf(s, w))
  {
    if PcOf(s, w).i == c.nodes[x].pos {
      OneNodePerPosition(c, w, PcOf(s, w).i, x);
    }
    hide WellFormed;
  }

  lemma OneElsewhere(c: Config, v: Tid, pc: Pc, x: nat)
    requires WellFormed(c) && v in c.team && pc.Running? && AtNode(c, v, pc.i) && NodeAt(c, v, pc.i) != x
    requires x < |c.nodes|
    ensures At(c, map[v := pc], x) == {}
  {
    assert v !in At(c, map[v := pc], x);
  }

  lemma NobodyStands(c: Config, way: seq<Port>, port: Port)
    requires WellFormed(c) && Leads(c, way, port)
    ensures forall j :: 0 <= j < |way| - 1 ==> Ready(c, map[], way[j].node)
  {
    forall j | 0 <= j < |way| - 1 ensures Ready(c, map[], way[j].node) {
      assert Passes(c, way[j], way[j + 1]);
      assert At(c, map[], way[j].node) == {};
      assert Workers(c, c.nodes[way[j].node].group) - {} == Workers(c, c.nodes[way[j].node].group);
    }
  }

  /** A queue that a worker at another node can send data to. */
  lemma NeighbourStrands(c: Config, way: seq<Port>, port: Port) returns (s: State)
    requires WellFormed(c) && Leads(c, way, port) && |way| >= 2 && !EndsInLoop(way) && port.node < |c.nodes|
    requires c.nodes[port.node].cap < |Workers(c, c.nodes[port.node].group)|
    ensures Reach(c, Init(c), s) && Fits(c, s) && port in s.queues && Stranded(c, s, port)
  {
    hide WellFormed, PortsFit, GatesInv, Init, Reach, AtRest, Stranded, Workers, MoreIdle, Past, At, Ready;
    var x := port.node;
    InitIsCalm(c);
    NobodyStands(c, way, port);
    var s1, v := Carries(c, Init(c), map[], way, port, |way| - 2);
    var alone := StandsStill(c, s1, map[], v);
    OneElsewhere(c, v, PcOf(s1, v), x);
    assert Passes(c, way[|way| - 2], port);
    var s2, still := FillUp(c, s1, alone, Some(v), port);
    ReachTrans(c, Init(c), s1, s2);
    var s3 := Supplies(c, s2, still, Some(v), port);
    ReachTrans(c, Init(c), s2, s3);
    SourceElsewhere(c, alone, still, v, x);
    IdleArePast(c, alone, still, x);
    assert alone.Keys == {v};
    Resumes(c, s3, still, v);
    var s4 := Withdraws(c, s3, still - {v}, v, port);
    ReachTrans(c, Init(c), s3, s4);
    s := LeavesBehind(c, s4, still - {v}, port);
    ReachTrans(c, Init(c), s4, s);
  }

  lemma SourceElsewhere(c: Config, alone: map<Tid, Pc>, still: map<Tid, Pc>, v: Tid, x: nat)
    requires x < |c.nodes| && v in alone && At(c, alone, x) == {} && MoreIdle(c, alone, still, x)
    ensures At(c, still - {v}, x) == At(c, still, x) && still[v] == alone[v]
  {
    assert v !in At(c, alone, x);
  }

  // ----- a task that feeds itself ------------------------------------------------------------------------

  /** A return with the batch not yet full looks at the queues again. */
  lemma ReturnTurns(c: Config, s: State, still: map<Tid, Pc>, v: Tid)
    requires Alone(c, s, still, v) && PcOf(s, v).Running? && !c.nodes[NodeAt(c, v, PcOf(s, v).i)].isState
    ensures var pc, pc' := PcOf(s, v), PcOf(After(c, s, v), v);
      pc'.Looking? ==> pc'.m == pc.m + 1 < c.groups[c.team[v]].batch
  {
    hide WellFormed, PortsFit, GatesInv, NodeAt, AtRest, SetFate;
  }

  /** The worker takes the first datum of a queue it has still to look at. */
  lemma Takes(c: Config, s: State, still: map<Tid, Pc>, v: Tid, q: Port) returns (s': State)
    requires Alone(c, s, still, v) && PcOf(s, v).Looking? && NodeAt(c, v, PcOf(s, v).i) == q.node
    requires q.typ in PcOf(s, v).todo && Items(s, q) != []
    ensures Alone(c, s', still, v) && Reach(c, s, s') && PcOf(s', v).Running?
    ensures PcOf(s', v).i == PcOf(s, v).i && PcOf(s', v).m == PcOf(s, v).m
  {
    s' := Next(c, s, v, Look(q.typ));
    OneStep(c, s, v, Look(q.typ));
    TakeTurns(c, s, still, v, q);
    StaysCalm(c, s, s', still, v);
    hide WellFormed, PortsFit, GatesInv, Reach, AtRest, Next, NodeAt;
  }

  lemma TakeTurns(c: Config, s: State, still: map<Tid, Pc>, v: Tid, q: Port)
    requires Alone(c, s, still, v) && PcOf(s, v).Looking? && NodeAt(c, v, PcOf(s, v).i) == q.node
    requires q.typ in PcOf(s, v).todo && Items(s, q) != []
    ensures var s' := Next(c, s, v, Look(q.typ));
      PcOf(s', v).Running? && PcOf(s', v).i == PcOf(s, v).i && PcOf(s', v).m == PcOf(s, v).m && s'.closing == s.closing
  {
    hide WellFormed, PortsFit, GatesInv, NodeAt, AtRest;
  }

  /** The worker at the node can send data to its own queue `port`. */
  predicate FeedsItself(c: Config, port: Port) {
    && port.node < |c.nodes| && port.typ in c.nodes[port.node].types
    && port.typ in c.nodes[port.node].succ && port.node in c.nodes[port.node].succ[port.typ]
  }

  /** A worker of a task sends data to its own node until its batch is full, and so leaves some there. */
  lemma {:induction false} FillsBatch(c: Config, s: State, still: map<Tid, Pc>, v: Tid, port: Port) returns (s': State)
    requires Alone(c, s, still, v) && FeedsItself(c, port) && !c.nodes[port.node].isState
    requires PcOf(s, v).Running? && NodeAt(c, v, PcOf(s, v).i) == port.node
    ensures Alone(c, s', still, v) && Reach(c, s, s') && Items(s', port) != [] && Signalled(c, s', port.node)
    ensures PcOf(s', v).Leaving? && NodeAt(c, v, PcOf(s', v).i) == port.node && PcOf(s', v).n > 0
    decreases c.groups[c.team[v]].batch - PcOf(s, v).m
  {
    hide WellFormed, PortsFit, GatesInv, Reach, AtRest, Works, Closer, Found, NodeAt, AtNode, Admits;
    var s1 := Calls(c, s, still, v, Emit(port.typ), c.nodes[port.node].succ[port.typ]);
    assert Alone(c, s1, still, v);
    ReturnTurns(c, s1, still, v);
    StepWorks(c, s1, still, v);
    StepTurns(c, s1, still, v);
    StepStaysAlone(c, s1, still, v);
    var s2 := After(c, s1, v);
    WorksIsRun(c, s1, s2, v);
    ReachTrans(c, s, s1, s2);
    if PcOf(s2, v).Looking? {
      var s3 := Takes(c, s2, still, v, port);
      ReachTrans(c, s, s2, s3);
      s' := FillsBatch(c, s3, still, v, port);
      ReachTrans(c, s, s3, s');
    } else {
      s' := s2;
    }
  }

  lemma WorksIsRun(c: Config, s: State, s': State, w: Tid)
    requires Fits(c, s) && w in c.team && Works(c, s, s', w)
    ensures Fits(c, s') && Reach(c, s, s') && SameSignals(s, s')
  {
    hide Fits, Reach;
  }

  /** One worker stands at the door of node `x`, another executes inside. */
  ghost predicate AtDoor(c: Config, both: map<Tid, Pc>, d: Tid, v: Tid, x: nat)
    requires WellFormed(c) && x < |c.nodes|
  {
    && d != v && both.Keys == {d, v} && d in Workers(c, c.nodes[x].group) && both[d] == AtAdd(c.nodes[x].pos, 0)
    && v in Workers(c, c.nodes[x].group) && both[v].Running? && both[v].i == c.nodes[x].pos
  }

  lemma DoorCounts(c: Config, both: map<Tid, Pc>, d: Tid, v: Tid, x: nat)
    requires WellFormed(c) && x < |c.nodes| && AtDoor(c, both, d, v, x)
    ensures |At(c, both, x)| == 1 && |both| == 2
  {
    assert At(c, both, x) == {v};
    assert |{d, v}| == 2;
  }

  /** Those left, once the one at the door has come in too late and the one that executes is on the move. */
  function Leftover(still: map<Tid, Pc>, d: Tid, v: Tid, pos: nat): map<Tid, Pc> {
    (still - {d})[d := Leaving(pos, 0)] - {v}
  }

  lemma TooLate(c: Config, both: map<Tid, Pc>, still: map<Tid, Pc>, d: Tid, v: Tid, x: nat)
    requires WellFormed(c) && x < |c.nodes| && AtDoor(c, both, d, v, x) && MoreIdle(c, both, still, x)
    ensures d in still && still[d] == AtAdd(c.nodes[x].pos, 0) && v in still && still[v] == both[v]
    ensures d in c.team && Scans(c, d, still[d])
    ensures At(c, still - {d}, x) == At(c, still, x)
  {
    assert c.nodes[x].pos < |GroupNodes(c, d)|;
    hide Past;
  }

  lemma LeftoverIsPast(c: Config, both: map<Tid, Pc>, still: map<Tid, Pc>, d: Tid, v: Tid, x: nat)
    requires WellFormed(c) && x < |c.nodes| && AtDoor(c, both, d, v, x) && MoreIdle(c, both, still, x)
    ensures AllPast(c, Leftover(still, d, v, c.nodes[x].pos), x)
    ensures |At(c, Leftover(still, d, v, c.nodes[x].pos), x)| == |At(c, still, x)|
  {
    var rest := Leftover(still, d, v, c.nodes[x].pos);
    forall t ensures t in At(c, rest, x) <==> t in rest.Keys {
      if t in still && t !in both { assert t in At(c, still, x); }
    }
    assert v in At(c, still, x) && d !in At(c, still, x);
    assert At(c, rest, x) == At(c, still, x) - {v} + {d};
  }

  /** The worker at the door does its `fetch_add`, too late. */
  lemma ComesTooLate(c: Config, s: State, still: map<Tid, Pc>, d: Tid, x: nat) returns (s': State)
    requires Calm(c, s, still, {}) && d in still && x < |c.nodes| && d in Workers(c, c.nodes[x].group)
    requires still[d] == AtAdd(c.nodes[x].pos, 0) && Scans(c, d, still[d]) && !Admits(c, still - {d}, x)
    ensures Calm(c, s', (still - {d})[d := Leaving(c.nodes[x].pos, 0)], {}) && Reach(c, s, s')
  {
    hide WellFormed, PortsFit, GatesInv, Reach, AtRest, Works, Closer, Found, Admits, Scans;
    Resumes(c, s, still, d);
    OneNodeThere(c, d, x);
    s' := Step(c, s, still - {d}, d);
    WorksIsRun(c, s, s', d);
    var now := StandsStill(c, s', still - {d}, d);
  }

  lemma OneNodeThere(c: Config, w: Tid, x: nat)
    requires WellFormed(c) && x < |c.nodes| && w in Workers(c, c.nodes[x].group)
    ensures w in c.team && AtNode(c, w, c.nodes[x].pos) && NodeAt(c, w, c.nodes[x].pos) == x
  {
    OneNodePerPosition(c, w, c.nodes[x].pos, x);
  }

  /** The worker that has left data at its own full node goes to sleep outside. */
  lemma LeavesAndParks(c: Config, s: State, still: map<Tid, Pc>, v: Tid, port: Port) returns (s': State)
    requires Alone(c, s, still, v) && Crowd(c, still, port.node) && !Admits(c, still, port.node)
    requires PcOf(s, v).Leaving? && PcOf(s, v).n > 0 && c.team[v] == c.nodes[port.node].group
    ensures Calm(c, s', still, {}) && Reach(c, s, s') && s'.permits == s.permits && Items(s', port) == Items(s, port)
  {
    hide WellFormed, PortsFit, GatesInv, Reach, AtRest, Closer, Found, Admits, At, Scans;
    var s1 := Step(c, s, still, v);
    SteppingOn(c, s1, port.node, PcOf(s1, v));
    s' := ParksOutside(c, s1, still, v, port.node);
    ReachTrans(c, s, s1, s');
    ParkedRests(c, still, v, PcOf(s', v));
    AllRest(c, s', still, v);
  }

  lemma SteppingOn(c: Config, s: State, x: nat, pc: Pc)
    requires x < |c.nodes| && pc.Stepping? && pc.n > 0
    ensures Outdoors(pc, c.nodes[x].pos) && Swept(c, s, x, pc)
  {
  }

  /** A worker is brought to the door of the node, and another to execute inside. */
  lemma Doorway(c: Config, way: seq<Port>, port: Port) returns (s: State, both: map<Tid, Pc>, d: Tid, v: Tid)
    requires WellFormed(c) && Leads(c, way, port) && EndsInLoop(way) && port.node < |c.nodes|
    requires 1 < |Workers(c, c.nodes[port.node].group)|
    ensures Reach(c, Init(c), s) && Calm(c, s, both, {}) && AtDoor(c, both, d, v, port.node)
    ensures FeedsItself(c, port) && c.nodes[port.node].cap > 0
  {
    hide PortsFit, GatesInv, Init, Reach, AtRest, Ready, At, Scans, Closer, Nearing;
    var x, last := port.node, |way| - 2;
    WayFits(c, way, port, |way| - 1);
    assert Passes(c, way[last], port);
    InitIsCalm(c);
    NobodyStands(c, way, port);
    var s1;
    s1, d := Carries(c, Init(c), map[], way, port, last);
    NobodyAt(c, x);
    RunningNears(PcOf(s1, d), c.nodes[x].pos);
    var s2 := ComesToDoor(c, s1, map[], d, x);
    WorksIsRun(c, s1, s2, d);
    ReachTrans(c, Init(c), s1, s2);
    var door := StandsStill(c, s2, map[], d);
    DoorIsReady(c, way, port, d);
    s, v := Carries(c, s2, door, way, port, last);
    ReachTrans(c, Init(c), s2, s);
    both := StandsStill(c, s, door, v);
  }

  lemma NobodyAt(c: Config, x: nat)
    requires x < |c.nodes| && 0 < c.nodes[x].cap
    ensures Admits(c, map[], x)
  {
    assert At(c, map[], x) == {};
  }

  lemma RunningNears(pc: Pc, pos: nat)
    requires pc.Running?
    ensures Nearing(pc, pos)
  {
  }

  lemma DoorIsReady(c: Config, way: seq<Port>, port: Port, d: Tid)
    requires WellFormed(c) && Leads(c, way, port) && port.node < |c.nodes|
    requires d in Workers(c, c.nodes[port.node].group) && 1 < |Workers(c, c.nodes[port.node].group)|
    ensures forall j :: 0 <= j < |way| - 1 ==> Ready(c, map[d := AtAdd(c.nodes[port.node].pos, 0)], way[j].node)
  {
    var door := map[d := AtAdd(c.nodes[port.node].pos, 0)];
    forall j | 0 <= j < |way| - 1 ensures Ready(c, door, way[j].node) {
      assert Passes(c, way[j], way[j + 1]);
      assert At(c, door, way[j].node) == {};
      var all := Workers(c, c.nodes[way[j].node].group);
      if d in all {
        SomeFree(door.Keys, all);
      } else {
        assert all - door.Keys == all;
      }
    }
  }

  lemma LoopStrands(c: Config, way: seq<Port>, port: Port) returns (s: State)
    requires WellFormed(c) && Leads(c, way, port) && EndsInLoop(way) && port.node < |c.nodes|
    requires c.nodes[port.node].cap < |Workers(c, c.nodes[port.node].group)| && !c.nodes[port.node].isState
    ensures Reach(c, Init(c), s) && Fits(c, s) && port in s.queues && Stranded(c, s, port)
  {
    hide PortsFit, GatesInv, Init, Reach, AtRest, Stranded, MoreIdle, Past, At, Leads, Scans;
    var x := port.node;
    LastPasses(c, way, port);
    var s1, both, d, v := Doorway(c, way, port);
    DoorCounts(c, both, d, v, x);
    OneNodeThere(c, v, x);
    var s2, still := FillUp(c, s1, both, Some(v), port);
    ReachTrans(c, Init(c), s1, s2);
    TooLate(c, both, still, d, v, x);
    LeftoverIsPast(c, both, still, d, v, x);
    var s3 := ComesTooLate(c, s2, still, d, x);
    ReachTrans(c, Init(c), s2, s3);
    var rest := Leftover(still, d, v, c.nodes[x].pos);
    RunningScans(c, v, still[v]);
    Resumes(c, s3, (still - {d})[d := Leaving(c.nodes[x].pos, 0)], v);
    var s4 := FillsBatch(c, s3, rest, v, port);
    ReachTrans(c, Init(c), s3, s4);
    var s5 := LeavesAndParks(c, s4, rest, v, port);
    ReachTrans(c, Init(c), s4, s5);
    s := LeavesBehind(c, s5, rest, port);
    ReachTrans(c, Init(c), s5, s);
  }

  lemma LastPasses(c: Config, way: seq<Port>, port: Port)
    requires Leads(c, way, port) && |way| >= 2
    ensures Passes(c, way[|way| - 2], port) && (EndsInLoop(way) ==> way[|way| - 2].node == port.node)
  {
  }

  lemma RunningScans(c: Config, v: Tid, pc: Pc)
    requires WellFormed(c) && v in c.team && pc.Running? && AtNode(c, v, pc.i)
    ensures Scans(c, v, pc)
  {
  }

  // ----- the exact condition -------------------------------------------------------------------------------

  /** Some run leaves data at `port` that nobody will come for. */
  ghost predicate MayStrand(c: Config, port: Port)
    requires WellFormed(c)
  {
    exists t: seq<(Tid, Action)> :: var s := Run(c, Init(c), t); port in s.queues && Stranded(c, s, port)
  }

  lemma CappedStrands(c: Config, port: Port) returns (s: State)
    requires WellFormed(c) && port.node < |c.nodes| && MayBeLeft(c, port)
    requires c.nodes[port.node].cap < |Workers(c, c.nodes[port.node].group)|
    ensures Reach(c, Init(c), s) && Fits(c, s) && port in s.queues && Stranded(c, s, port)
  {
    hide WellFormed, Init, Reach, Stranded, Workers;
    var way :| Leads(c, way, port) && (c.nodes[port.node].isState ==> !EndsInLoop(way));
    if |way| == 1 {
      s := InputStrands(c, port);
    } else if EndsInLoop(way) {
      s := LoopStrands(c, way, port);
    } else {
      s := NeighbourStrands(c, way, port);
    }
  }

  /**
    Exactly when data can be left behind, at any queue of any graph, with any groups, caps and
    batches: some run strands data if and only if the cap of the node is smaller than the number of
    workers of its group and data can come to the queue, for a state from elsewhere than the state.
   */
  lemma StrandsExactlyWhenCapped(c: Config, port: Port)
    requires WellFormed(c) && port.node < |c.nodes|
    ensures MayStrand(c, port) <==>
      c.nodes[port.node].cap < |Workers(c, c.nodes[port.node].group)| && MayBeLeft(c, port)
  {
    hide WellFormed, Stranded, Init, MayBeLeft;
    if c.nodes[port.node].cap < |Workers(c, c.nodes[port.node].group)| && MayBeLeft(c, port) {
      var s := CappedStrands(c, port);
      var t: seq<(Tid, Action)> :| Run(c, Init(c), t) == s;
      assert port in Run(c, Init(c), t).queues;
    } else {
      forall t: seq<(Tid, Action)> ensures var s := Run(c, Init(c), t); port in s.queues ==> !Stranded(c, s, port) {
        DoesNotStrand(c, t, port);
      }
    }
    hide Run;
  }

  lemma DoesNotStrand(c: Config, t: seq<(Tid, Action)>, port: Port)
    requires WellFormed(c) && port.node < |c.nodes|
    requires c.nodes[port.node].cap >= |Workers(c, c.nodes[port.node].group)| || !MayBeLeft(c, port)
    ensures var s := Run(c, Init(c), t); port in s.queues ==> !Stranded(c, s, port)
  {
    hide WellFormed, Stranded, Init, Run, MayBeLeft;
    var s := Run(c, Init(c), t);
    if port in s.queues && Stranded(c, s, port) {
      StrandedRunMayBeLeft(c, t, port);
      SameQueuesAsInit(c, t, port);
      NothingStranded(c, t, port);
    }
  }

  lemma SameQueuesAsInit(c: Config, t: seq<(Tid, Action)>, port: Port)
    requires WellFormed(c) && port in Run(c, Init(c), t).queues
    ensures port in Init(c).queues
  {
    assert Fits(c, Run(c, Init(c), t)) && Fits(c, Init(c));
    assert port in Run(c, Init(c), t).queues.Keys;
    hide WellFormed, Run, Init;
  }

  /** In particular at every queue that outside data is pushed to. */
  lemma InputsStrandExactlyWhenCapped(c: Config, port: Port)
    requires WellFormed(c) && IsInput(c, port)
    ensures port.node < |c.nodes|
    ensures MayStrand(c, port) <==> c.nodes[port.node].cap < |Workers(c, c.nodes[port.node].group)|
  {
    assert Receivers(c, c.inputs[port.typ], port.typ);
    InputLeads(c, port);
    StrandsExactlyWhenCapped(c, port);
    hide MayStrand, MayBeLeft, Workers;
  }
}
