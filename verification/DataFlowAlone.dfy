/**
  One thread of the data-flow run time that runs alone, wherever the others have stopped: how much a
  worker takes from a node in one visit, that its scan ends, that it stops once told to; and what
  follows when no thread can take a step.
 */
module DataFlowAlone {
  import opened Common
  import opened DataFlow
  import opened DataFlowData
  import opened DataFlowWake
  import opened DataFlowDrive
  import opened DataFlowCalls

  // ----- one thread alone --------------------------------------------------------------------------------

  /** The thread's next access: any queue it has still to look at, any receiver it has still to serve. */
  ghost function Own(s: State, p: Tid, pick: State -> TypeId): Action {
    var pc := PcOf(s, p);
    if pc.Looking? && pc.todo != {} then Look(if pick(s) in pc.todo then pick(s) else Any(pc.todo))
    else if Delivers(pc) && (exists x :: MayPush(s, pc, x)) then
      var x :| MayPush(s, pc, x);
      PushTo(x)
    else if Delivers(pc) && (exists x :: MayNotify(s, pc, x)) then
      var x :| MayNotify(s, pc, x);
      Notify(x)
    else Go
  }

  /** `p` takes `n` steps and begins no call; nobody else takes any. */
  ghost function Alone(c: Config, s: State, p: Tid, pick: State -> TypeId, n: nat): (s': State)
    requires Fits(c, s)
    ensures Fits(c, s')
    decreases n
  {
    if n == 0 then s else Alone(c, Next(c, s, p, Own(s, p, pick)), p, pick, n - 1)
  }

  /** Worker `p` is at a position of its group, which has nodes, and looks only at queues of the node. */
  ghost predicate Placed(c: Config, s: State, p: Tid)
    requires Fits(c, s)
  {
    var pc := PcOf(s, p);
    && p in c.team && |GroupNodes(c, p)| > 0 && PlaceInv(c, s, p)
    && (pc.AtLoad? || pc.Stepping? ==> pc.i < |GroupNodes(c, p)|)
    && (pc.Looking? ==> pc.todo <= c.nodes[NodeAt(c, p, pc.i)].types)
  }

  lemma GoStaysPlaced(c: Config, s: State, p: Tid)
    requires Fits(c, s) && Placed(c, s, p)
    ensures Placed(c, WorkerGo(c, s, p), p)
  {
    hide WellFormed, PortsFit;
  }

  lemma OwnActionStaysPlaced(c: Config, s: State, p: Tid, a: Action)
    requires Fits(c, s) && Placed(c, s, p) && !a.Go?
    ensures Placed(c, Next(c, s, p, a), p)
  {
    hide WellFormed, PortsFit;
  }

  lemma OtherStaysPlaced(c: Config, s: State, s': State, p: Tid)
    requires Fits(c, s) && Fits(c, s') && Placed(c, s, p) && PcOf(s', p) == PcOf(s, p)
    ensures Placed(c, s', p)
  {
    hide WellFormed, PortsFit;
  }

  lemma NextStaysPlaced(c: Config, s: State, q: Tid, a: Action, p: Tid)
    requires Fits(c, s) && Placed(c, s, p)
    ensures Placed(c, Next(c, s, q, a), p)
  {
    if q != p {
      NextStaysApart(c, s, q, a);
      OtherStaysPlaced(c, s, Next(c, s, q, a), p);
    } else if a.Go? {
      IsInTeam(c, s, p);
      GoStaysPlaced(c, s, p);
    } else {
      OwnActionStaysPlaced(c, s, p, a);
    }
    hide Placed, WellFormed, PortsFit, WorkerGo;
  }

  lemma IsInTeam(c: Config, s: State, p: Tid)
    requires Fits(c, s) && Placed(c, s, p)
    ensures p in c.team
  {
  }

  // ----- a scan comes to its end -------------------------------------------------------------------------

  /** In its scan, and in no call. */
  predicate Scanning(pc: Pc) { !pc.Outside? && !pc.Feeding? && !pc.Sending? && !pc.Parked? && !pc.Stopped? }

  lemma GoSamePending(c: Config, s: State, p: Tid)
    requires Fits(c, s) && p in c.team
    ensures Pending(WorkerGo(c, s, p)) == Pending(s)
  {
    GoSameItems(c, s, p);
    SamePending(s, WorkerGo(c, s, p));
    hide WellFormed, PortsFit, WorkerGo, Pending;
  }

  lemma GoSameItems(c: Config, s: State, p: Tid)
    requires Fits(c, s) && p in c.team
    ensures WorkerGo(c, s, p).queues.Keys == s.queues.Keys
    ensures forall q :: Items(WorkerGo(c, s, p), q) == Items(s, q)
  {
    hide WellFormed, PortsFit, NodeAt;
  }

  lemma SamePending(s: State, s': State)
    requires s'.queues.Keys == s.queues.Keys && forall q :: Items(s', q) == Items(s, q)
    ensures Pending(s') == Pending(s)
  {
    forall q, k: nat ensures (q, k) in Pending(s) <==> k < |Items(s, q)| {
    }
    forall q, k: nat ensures (q, k) in Pending(s') <==> k < |Items(s', q)| {
    }
  }

  lemma GoIsNearer(c: Config, s: State, p: Tid)
    requires Fits(c, s) && Placed(c, s, p) && Scanning(PcOf(s, p)) && Todo(PcOf(s, p)) == {}
    ensures var len := |GroupNodes(c, p)|;
      0 <= Distance(len, PcOf(WorkerGo(c, s, p), p)) < Distance(len, PcOf(s, p))
  {
    hide WellFormed, PortsFit, NodeAt, SetFate;
  }

  lemma LookIsNearer(c: Config, s: State, p: Tid, t: TypeId)
    requires Fits(c, s) && Placed(c, s, p) && PcOf(s, p).Looking? && t in PcOf(s, p).todo
    ensures var s' := Next(c, s, p, Look(t)); var pc, pc' := PcOf(s, p), PcOf(s', p);
      var port := Port(NodeAt(c, p, pc.i), t);
      && port in s.queues && s'.queues.Keys == s.queues.Keys && (forall q :: q != port ==> Items(s', q) == Items(s, q))
      && if Items(s, port) == [] then pc' == Looking(pc.i, pc.n, pc.todo - {t}, pc.m) && Items(s', port) == []
         else pc'.Running? && pc'.i == pc.i && pc'.n == pc.n && pc'.m == pc.m
              && Items(s', port) == Items(s, port)[1..]
  {
    assert Port(NodeAt(c, p, PcOf(s, p).i), t) in s.queues.Keys;
    hide WellFormed, NodeAt;
  }

  lemma OwnIsCloser(c: Config, s: State, p: Tid, pick: State -> TypeId)
    requires Fits(c, s) && Placed(c, s, p) && Scanning(PcOf(s, p))
    ensures Closer(c, s, Next(c, s, p, Own(s, p, pick)), p)
  {
    hide WellFormed, PortsFit, NodeAt, WorkerGo, Pending, Distance;
    var s' := Next(c, s, p, Own(s, p, pick));
    if Todo(PcOf(s, p)) == {} {
      GoSamePending(c, s, p);
      GoIsNearer(c, s, p);
    } else {
      LooksCloser(c, s, p, Own(s, p, pick).t);
    }
  }

  lemma LooksCloser(c: Config, s: State, p: Tid, t: TypeId)
    requires Fits(c, s) && Placed(c, s, p) && PcOf(s, p).Looking? && t in PcOf(s, p).todo
    ensures Closer(c, s, Next(c, s, p, Look(t)), p)
  {
    hide Next, WellFormed, PortsFit, NodeAt, Pending;
    var s' := Next(c, s, p, Look(t));
    LookIsNearer(c, s, p, t);
    if PcOf(s', p).Running? {
      OneLess(s, s', Port(NodeAt(c, p, PcOf(s, p).i), t));
    } else {
      SamePending(s, s');
    }
  }

  lemma OneLess(s: State, s': State, port: Port)
    requires s'.queues.Keys == s.queues.Keys && forall q :: q != port ==> Items(s', q) == Items(s, q)
    requires Items(s, port) != [] && Items(s', port) == Items(s, port)[1..]
    ensures var last := (port, (|Items(s, port)| - 1) as nat);
      last in Pending(s) && Pending(s') == Pending(s) - {last}
  {
    forall q, k: nat ensures (q, k) in Pending(s) <==> k < |Items(s, q)| {
    }
    forall q, k: nat ensures (q, k) in Pending(s') <==> k < |Items(s', q)| {
    }
  }

  /** A worker left alone, its exec calling nothing more, comes to the end of its scan, in whatever order it looks. */
  lemma {:induction false} LoneScan(c: Config, s: State, p: Tid, pick: State -> TypeId) returns (n: nat)
    requires Fits(c, s) && Placed(c, s, p) && (PcOf(s, p).Parked? || PcOf(s, p).Stopped? || Scanning(PcOf(s, p)))
    ensures PcOf(Alone(c, s, p, pick, n), p).Parked? || PcOf(Alone(c, s, p, pick, n), p).Stopped?
    decreases Pending(s), Distance(|GroupNodes(c, p)|, PcOf(s, p)), Todo(PcOf(s, p))
  {
    hide Next, WellFormed, PortsFit, PlaceInv, Own, Pending, Distance, Todo;
    if !Scanning(PcOf(s, p)) {
      n := 0;
    } else {
      var s1 := Next(c, s, p, Own(s, p, pick));
      OwnIsCloser(c, s, p, pick);
      NextStaysPlaced(c, s, p, Own(s, p, pick), p);
      StaysScanning(c, s, p, pick);
      var m := LoneScan(c, s1, p, pick);
      n := m + 1;
    }
  }

  lemma StaysScanning(c: Config, s: State, p: Tid, pick: State -> TypeId)
    requires Fits(c, s) && Placed(c, s, p) && Scanning(PcOf(s, p))
    ensures var pc' := PcOf(Next(c, s, p, Own(s, p, pick)), p); Scanning(pc') || pc'.Parked? || pc'.Stopped?
  {
    hide WellFormed, PortsFit, NodeAt;
  }

  /** The worker is not inside node `x`, nor between the check on its count and the `fetch_add`. */
  ghost predicate KeepsOut(c: Config, s: State, p: Tid, x: nat)
    requires Fits(c, s)
  {
    x < |c.nodes| && ((IsInside(PcOf(s, p)) || PcOf(s, p).AtAdd?) && AtNode(c, p, PcOf(s, p).i) ==>
      NodeAt(c, p, PcOf(s, p).i) != x)
  }

  lemma GoPassesFull(c: Config, s: State, p: Tid, x: nat)
    requires Fits(c, s) && Placed(c, s, p) && KeepsOut(c, s, p, x) && s.gates[x].count >= c.nodes[x].cap
    ensures KeepsOut(c, WorkerGo(c, s, p), p, x) && WorkerGo(c, s, p).gates[x] == s.gates[x]
  {
    hide WellFormed, PortsFit, NodeAt;
  }

  lemma OwnPassesFull(c: Config, s: State, p: Tid, pick: State -> TypeId, x: nat)
    requires Fits(c, s) && Placed(c, s, p) && KeepsOut(c, s, p, x) && s.gates[x].count >= c.nodes[x].cap
    ensures var s' := Next(c, s, p, Own(s, p, pick)); KeepsOut(c, s', p, x) && s'.gates[x] == s.gates[x]
  {
    IsInTeam(c, s, p);
    if Own(s, p, pick).Go? { GoPassesFull(c, s, p, x); }
    hide WellFormed, PortsFit, NodeAt, WorkerGo;
  }

  /** What the check before the `fetch_add` is for: a worker that finds a node full leaves its count alone. */
  lemma {:induction false} LonePassesFull(c: Config, s: State, p: Tid, pick: State -> TypeId, n: nat, x: nat)
    requires Fits(c, s) && Placed(c, s, p) && KeepsOut(c, s, p, x) && s.gates[x].count >= c.nodes[x].cap
    ensures x < |Alone(c, s, p, pick, n).gates| && Alone(c, s, p, pick, n).gates[x] == s.gates[x]
    decreases n
  {
    hide Next, WellFormed, PortsFit, Own, Placed, KeepsOut;
    NodeExists(c, s, p, x);
    if n == 0 {
    } else {
      OwnPassesFull(c, s, p, pick, x);
      NextStaysPlaced(c, s, p, Own(s, p, pick), p);
      LonePassesFull(c, Next(c, s, p, Own(s, p, pick)), p, pick, n - 1, x);
    }
  }

  lemma NodeExists(c: Config, s: State, p: Tid, x: nat)
    requires Fits(c, s) && KeepsOut(c, s, p, x)
    ensures x < |c.nodes|
  {
  }

  // ----- a call alone ----------------------------------------------------------------------------------

  ghost predicate MakesSome(c: Config, s: State, p: Tid) {
    Delivers(PcOf(s, p)) && PcOf(s, p).d < |s.deliveries| && DeliveryInv(c, s, PcOf(s, p).d)
  }

  function Unpushed(s: State, d: nat): set<nat>
    requires d < |s.deliveries|
  {
    s.deliveries[d].to - s.deliveries[d].pushed
  }

  function Unnotified(s: State, d: nat): set<nat>
    requires d < |s.deliveries|
  {
    s.deliveries[d].to - s.deliveries[d].notified
  }

  /** The next access of a thread in a call brings its end nearer. */
  lemma OwnServes(c: Config, s: State, p: Tid, pick: State -> TypeId)
    requires Fits(c, s) && MakesSome(c, s, p) && (p in c.team <==> PcOf(s, p).Sending?)
    ensures
      var s' := Next(c, s, p, Own(s, p, pick)); var d := PcOf(s, p).d;
      if Served(s, d) then PcOf(s', p).Outside? || PcOf(s', p).Running?
      else
        && PcOf(s', p) == PcOf(s, p) && d < |s'.deliveries| && DeliveryInv(c, s', d)
        && (|| (Unpushed(s', d) < Unpushed(s, d) && Unnotified(s', d) == Unnotified(s, d))
            || (Unpushed(s', d) == Unpushed(s, d) && Unnotified(s', d) < Unnotified(s, d)))
  {
    var d, pc := PcOf(s, p).d, PcOf(s, p);
    var e := s.deliveries[d];
    if exists x :: MayPush(s, pc, x) {
      var x := Own(s, p, pick).x;
      assert MayPush(s, pc, x);
      PushServes(c, s, p, x);
    } else if exists x :: MayNotify(s, pc, x) {
      var x := Own(s, p, pick).x;
      assert MayNotify(s, pc, x);
      NotifyServes(c, s, p, x);
    } else {
      NothingLeft(c, s, pc);
      CallReturns(c, s, p);
    }
    hide *;
  }

  lemma PushServes(c: Config, s: State, p: Tid, x: nat)
    requires Fits(c, s) && MakesSome(c, s, p) && MayPush(s, PcOf(s, p), x)
    ensures
      var s' := Next(c, s, p, PushTo(x)); var d := PcOf(s, p).d;
      && PcOf(s', p) == PcOf(s, p) && d < |s'.deliveries| && DeliveryInv(c, s', d)
      && Unpushed(s', d) < Unpushed(s, d) && Unnotified(s', d) == Unnotified(s, d)
  {
    var d := PcOf(s, p).d;
    assert Port(x, s.deliveries[d].typ) in s.queues.Keys;
    assert x in Unpushed(s, d) && x !in Unpushed(Next(c, s, p, PushTo(x)), d);
    hide WellFormed;
  }

  lemma NotifyServes(c: Config, s: State, p: Tid, x: nat)
    requires Fits(c, s) && MakesSome(c, s, p) && MayNotify(s, PcOf(s, p), x)
    ensures
      var s' := Next(c, s, p, Notify(x)); var d := PcOf(s, p).d;
      && PcOf(s', p) == PcOf(s, p) && d < |s'.deliveries| && DeliveryInv(c, s', d)
      && Unpushed(s', d) == Unpushed(s, d) && Unnotified(s', d) < Unnotified(s, d)
  {
    var d := PcOf(s, p).d;
    assert x in Unnotified(s, d) && x !in Unnotified(Next(c, s, p, Notify(x)), d);
    hide PortsFit;
  }

  lemma NothingLeft(c: Config, s: State, pc: Pc)
    requires Delivers(pc) && pc.d < |s.deliveries| && DeliveryInv(c, s, pc.d)
    requires forall x :: !MayPush(s, pc, x) && !MayNotify(s, pc, x)
    ensures Served(s, pc.d)
  {
    var e := s.deliveries[pc.d];
    if pc.Feeding? {
      assert e.pushed == e.notified by {
        forall x | x in e.pushed ensures x in e.notified { assert !MayNotify(s, pc, x); }
      }
      assert e.to == e.pushed by {
        forall x | x in e.to ensures x in e.pushed { assert !MayPush(s, pc, x); }
      }
    } else {
      assert e.to == e.pushed by {
        forall x | x in e.to ensures x in e.pushed { assert !MayPush(s, pc, x); }
      }
      assert e.pushed == e.notified by {
        forall x | x in e.pushed ensures x in e.notified { assert !MayNotify(s, pc, x); }
      }
    }
    hide Receivers;
  }

  lemma CallReturns(c: Config, s: State, p: Tid)
    requires Fits(c, s) && Delivers(PcOf(s, p)) && Served(s, PcOf(s, p).d) && (p in c.team <==> PcOf(s, p).Sending?)
    ensures PcOf(Next(c, s, p, Go), p).Outside? || PcOf(Next(c, s, p, Go), p).Running?
  {
    hide WellFormed, PortsFit;
  }

  /** A call of `tu_dfg_push_data` or `tu_result` that is left alone returns, having served all its receivers. */
  lemma {:induction false} LoneCall(c: Config, s: State, p: Tid, pick: State -> TypeId) returns (n: nat)
    requires Fits(c, s) && MakesSome(c, s, p) && (p in c.team <==> PcOf(s, p).Sending?)
    ensures var pc' := PcOf(Alone(c, s, p, pick, n), p); pc'.Outside? || pc'.Running?
    decreases Unpushed(s, PcOf(s, p).d), Unnotified(s, PcOf(s, p).d)
  {
    hide Next, WellFormed, PortsFit, Own, Unpushed, Unnotified;
    var s1 := Next(c, s, p, Own(s, p, pick));
    OwnServes(c, s, p, pick);
    if Served(s, PcOf(s, p).d) {
      n := 1;
      assert Alone(c, s1, p, pick, 0) == s1;
    } else {
      var m := LoneCall(c, s1, p, pick);
      n := m + 1;
    }
  }

  // ----- every worker stops --------------------------------------------------------------------------------

  lemma {:induction false} AloneAdds(c: Config, s: State, p: Tid, pick: State -> TypeId, m: nat, n: nat)
    requires Fits(c, s)
    ensures Alone(c, Alone(c, s, p, pick, m), p, pick, n) == Alone(c, s, p, pick, m + n)
    decreases m
  {
    hide Next, Own, WellFormed, PortsFit;
    if m == 0 {
    } else {
      AloneAdds(c, Next(c, s, p, Own(s, p, pick)), p, pick, m - 1, n);
    }
  }

  lemma {:induction false} AloneStays(c: Config, s: State, p: Tid, pick: State -> TypeId, n: nat, g: nat)
    requires Fits(c, s) && Placed(c, s, p) && ShutDown(c, s, g)
    ensures Placed(c, Alone(c, s, p, pick, n), p) && ShutDown(c, Alone(c, s, p, pick, n), g)
    decreases n
  {
    hide Next, Own, WellFormed, PortsFit, Placed, ShutDown;
    if n == 0 {
    } else {
      var a := Own(s, p, pick);
      NextStaysPlaced(c, s, p, a, p);
      StaysShutDown(c, s, p, a, g);
      AloneStays(c, Next(c, s, p, a), p, pick, n - 1, g);
    }
  }

  lemma SleeperFindsPermit(c: Config, s: State, p: Tid)
    requires Fits(c, s) && p in c.team && ShutDown(c, s, c.team[p])
    ensures p in s.closing && (PcOf(s, p).Parked? ==> s.permits[c.team[p]] > 0)
  {
    assert p in Workers(c, c.team[p]);
    if PcOf(s, p).Parked? { assert p in Unstopped(c, s, c.team[p]); }
    hide WellFormed, PortsFit;
  }

  lemma SleeperStops(c: Config, s: State, p: Tid, pick: State -> TypeId)
    requires Fits(c, s) && p in c.team && p in s.closing && PcOf(s, p).Parked? && s.permits[c.team[p]] > 0
    ensures PcOf(Alone(c, s, p, pick, 2), p).Stopped?
  {
    hide WellFormed, PortsFit;
    var s1 := Next(c, s, p, Go);
    assert PcOf(s1, p).Woken? && s1.closing == s.closing;
    var s2 := Next(c, s1, p, Go);
    assert Alone(c, s2, p, pick, 0) == s2 && Alone(c, s1, p, pick, 1) == s2;
  }

  /** From wherever it stands a worker that has the permit of `tu_dfg_term` waiting for it stops when it runs alone. */
  lemma ScanStops(c: Config, s: State, p: Tid, pick: State -> TypeId) returns (n: nat)
    requires Fits(c, s) && Placed(c, s, p) && p in c.team && ShutDown(c, s, c.team[p])
    requires PcOf(s, p).Parked? || PcOf(s, p).Stopped? || Scanning(PcOf(s, p))
    ensures PcOf(Alone(c, s, p, pick, n), p).Stopped?
  {
    hide Next, Own, WellFormed, PortsFit, Placed, ShutDown, Alone;
    n := LoneScan(c, s, p, pick);
    var s' := Alone(c, s, p, pick, n);
    AloneStays(c, s, p, pick, n, c.team[p]);
    if PcOf(s', p).Parked? {
      SleeperFindsPermit(c, s', p);
      SleeperStops(c, s', p, pick);
      AloneAdds(c, s, p, pick, n, 2);
      n := n + 2;
    }
  }

  lemma RunStaysPlaced(c: Config, t: seq<(Tid, Action)>, p: Tid)
    requires WellFormed(c) && p in c.team && c.groups[c.team[p]].nodes != []
    ensures Placed(c, Run(c, Init(c), t), p)
  {
    InitGates(c);
    assert PlaceInv(c, Init(c), p);
    assert Placed(c, Init(c), p);
    StaysPlaced(c, Init(c), t, p);
    hide Run, Init;
  }

  lemma {:induction false} StaysPlaced(c: Config, s: State, t: seq<(Tid, Action)>, p: Tid)
    requires Fits(c, s) && Placed(c, s, p)
    ensures Placed(c, Run(c, s, t), p)
    decreases |t|
  {
    hide Next, WellFormed, PortsFit, Placed;
    if t == [] {
    } else {
      NextStaysPlaced(c, s, t[0].0, t[0].1, p);
      StaysPlaced(c, Next(c, s, t[0].0, t[0].1), t[1..], p);
    }
  }

  lemma InitReleased(c: Config)
    requires WellFormed(c)
    ensures ReleasedInv(c, Init(c))
  {
  }

  lemma CallInRun(c: Config, t: seq<(Tid, Action)>, p: Tid)
    requires WellFormed(c)
    ensures var s := Run(c, Init(c), t);
      && (Delivers(PcOf(s, p)) ==> MakesSome(c, s, p))
      && PlaceInv(c, s, p)
  {
    RunInv(c, t);
    var s := Run(c, Init(c), t);
    hide WellFormed, PortsFit, Run, Init, QueueInv, GateInv;
    assert HandInv(s, p) && PlaceInv(c, s, p);
    if Delivers(PcOf(s, p)) { assert DeliveryInv(c, s, PcOf(s, p).d); }
  }

  /**
    Once `tu_dfg_term` has come past a group, in any run, every worker of the group stops when it runs:
    asleep, in the middle of a scan, or inside an exec that calls nothing more, whatever the other
    threads have been doing.
   */
  lemma LoneStop(c: Config, t: seq<(Tid, Action)>, p: Tid, pick: State -> TypeId) returns (n: nat)
    requires WellFormed(c) && p in c.team && c.groups[c.team[p]].nodes != []
    requires c.team[p] in Run(c, Init(c), t).released
    ensures PcOf(Alone(c, Run(c, Init(c), t), p, pick, n), p).Stopped?
  {
    hide Next, Own, PortsFit, Placed, ShutDown, Alone, Run, Init, MakesSome, WellFormed;
    var s := Run(c, Init(c), t);
    InitReleased(c);
    RunKeepsReleased(c, Init(c), t);
    RunStaysPlaced(c, t, p);
    CallInRun(c, t, p);
    assert ShutDown(c, s, c.team[p]);
    if PcOf(s, p).Sending? {
      var m := LoneCall(c, s, p, pick);
      AloneStays(c, s, p, pick, m, c.team[p]);
      var s1 := Alone(c, s, p, pick, m);
      PlacedStands(c, s1, p);
      var l := ScanStops(c, s1, p, pick);
      AloneAdds(c, s, p, pick, m, l);
      n := m + l;
    } else {
      n := ScanStops(c, s, p, pick);
    }
  }

  lemma PlacedStands(c: Config, s: State, p: Tid)
    requires Fits(c, s) && Placed(c, s, p)
    ensures !PcOf(s, p).Outside? && !PcOf(s, p).Feeding?
  {
  }

  /** No access of `p` changes anything. */
  ghost predicate Rests(c: Config, s: State, p: Tid)
    requires Fits(c, s)
  {
    forall a: Action :: a.Go? || a.Look? || a.PushTo? || a.Notify? ==> Next(c, s, p, a) == s
  }

  /** After that the workers only come to rest stopped: `join` has nothing to wait for. */
  lemma RestMeansStopped(c: Config, t: seq<(Tid, Action)>, p: Tid)
    requires WellFormed(c) && p in c.team && c.groups[c.team[p]].nodes != []
    requires c.team[p] in Run(c, Init(c), t).released
    requires Rests(c, Run(c, Init(c), t), p)
    ensures PcOf(Run(c, Init(c), t), p).Stopped?
  {
    var s := Run(c, Init(c), t);
    var pick: State -> TypeId := _ => 0;
    OwnIsMove(s, p, pick);
    hide Next, Own, WellFormed, PortsFit, Placed, Init, Run;
    var n := LoneStop(c, t, p, pick);
    RestsAlone(c, s, p, pick, n);
  }

  lemma OwnIsMove(s: State, p: Tid, pick: State -> TypeId)
    ensures var a := Own(s, p, pick); a.Go? || a.Look? || a.PushTo? || a.Notify?
  {
  }

  lemma {:induction false} RestsAlone(c: Config, s: State, p: Tid, pick: State -> TypeId, n: nat)
    requires Fits(c, s) && Next(c, s, p, Own(s, p, pick)) == s
    ensures Alone(c, s, p, pick, n) == s
    decreases n
  {
    hide Next, Own, WellFormed, PortsFit;
    if n == 0 {
    } else {
      RestsAlone(c, s, p, pick, n - 1);
    }
  }

  // ----- one visit to a node ---------------------------------------------------------------------------------

  /** The data in the queues of node `x`. */
  ghost function PendingAt(s: State, x: nat): set<(Port, nat)> { set e | e in Pending(s) && e.0.node == x }

  /** What a worker takes from a task in one visit, at most. */
  function Batch(c: Config, p: Tid): nat
    requires WellFormed(c) && p in c.team
  {
    if c.groups[c.team[p]].batch == 0 then 1 else c.groups[c.team[p]].batch
  }

  /** Worker `p` is at the queues of its node; those it has looked at since it last took a datum are empty. */
  ghost predicate Visits(c: Config, s: State, p: Tid)
    requires Fits(c, s)
  {
    var pc := PcOf(s, p);
    && Placed(c, s, p) && pc.Looking? && (c.nodes[NodeAt(c, p, pc.i)].isState || pc.m < Batch(c, p))
    && forall t :: t in c.nodes[NodeAt(c, p, pc.i)].types - pc.todo ==> Items(s, Port(NodeAt(c, p, pc.i), t)) == []
  }

  /** The worker goes from `s` to the end of its visit in `s'`, and takes what it should. */
  ghost predicate Visited(c: Config, s: State, s': State, p: Tid)
    requires Fits(c, s) && Visits(c, s, p)
  {
    var pc := PcOf(s, p);
    var x := NodeAt(c, p, pc.i);
    var had, has := PendingAt(s, x), PendingAt(s', x);
    && has <= had && |has| <= |had| && (forall q: Port :: q.node != x ==> Items(s', q) == Items(s, q))
    && PcOf(s', p) == Leaving(pc.i, pc.n + |had| - |has|)
    && if c.nodes[x].isState || |had| <= Batch(c, p) - pc.m then has == {} else |has| == |had| - (Batch(c, p) - pc.m)
  }

  /** A worker that the `fetch_add` admits begins a visit. */
  lemma VisitBegins(c: Config, s: State, p: Tid)
    requires Fits(c, s) && Placed(c, s, p) && PcOf(s, p).AtAdd?
    requires s.gates[NodeAt(c, p, PcOf(s, p).i)].count < c.nodes[NodeAt(c, p, PcOf(s, p).i)].cap
    ensures var s' := Next(c, s, p, Go);
      && Visits(c, s', p) && PcOf(s', p).i == PcOf(s, p).i && PcOf(s', p).n == PcOf(s, p).n && PcOf(s', p).m == 0
      && forall q: Port :: Items(s', q) == Items(s, q)
  {
    hide WellFormed, PortsFit;
  }

  lemma VisitOver(c: Config, s: State, p: Tid)
    requires Fits(c, s) && Visits(c, s, p) && PcOf(s, p).todo == {}
    ensures Visited(c, s, Next(c, s, p, Go), p)
  {
    var x := NodeAt(c, p, PcOf(s, p).i);
    forall e | e in Pending(s) ensures e.0.node != x {
      assert e.0 in s.queues.Keys;
      assert e.0.node == x ==> Items(s, Port(x, e.0.typ)) == [];
    }
    assert PendingAt(s, x) == {};
    GoSamePending(c, s, p);
    GoSameItems(c, s, p);
    hide WellFormed, Pending, WorkerGo;
    WithdrawsNow(c, s, p);
  }

  lemma WithdrawsNow(c: Config, s: State, p: Tid)
    requires Fits(c, s) && Placed(c, s, p) && PcOf(s, p).Looking? && PcOf(s, p).todo == {}
    ensures PcOf(Next(c, s, p, Go), p) == Leaving(PcOf(s, p).i, PcOf(s, p).n) && p in c.team
  {
    hide WellFormed, PortsFit;
  }

  lemma LookStaysVisit(c: Config, s: State, p: Tid, t: TypeId)
    requires Fits(c, s) && Visits(c, s, p) && t in PcOf(s, p).todo
    ensures var s' := Next(c, s, p, Look(t)); var x := NodeAt(c, p, PcOf(s, p).i);
      if Items(s, Port(x, t)) == [] then
        Visits(c, s', p) && PcOf(s', p) == Looking(PcOf(s, p).i, PcOf(s, p).n, PcOf(s, p).todo - {t}, PcOf(s, p).m)
        && Pending(s') == Pending(s) && forall q: Port :: Items(s', q) == Items(s, q)
      else
        && PcOf(s', p).Running? && PcOf(s', p).i == PcOf(s, p).i && PcOf(s', p).n == PcOf(s, p).n
        && PcOf(s', p).m == PcOf(s, p).m
        && Pending(s') < Pending(s) && PendingAt(s', x) < PendingAt(s, x) && |PendingAt(s', x)| == |PendingAt(s, x)| - 1
        && forall q: Port :: q.node != x ==> Items(s', q) == Items(s, q)
  {
    var s', x := Next(c, s, p, Look(t)), NodeAt(c, p, PcOf(s, p).i);
    LookIsNearer(c, s, p, t);
    NextStaysPlaced(c, s, p, Look(t), p);
    hide Next, WellFormed, PortsFit, NodeAt, Pending, PlaceInv;
    if Items(s, Port(x, t)) == [] {
      SamePending(s, s');
    } else {
      OneLess(s, s', Port(x, t));
      var last := (Port(x, t), (|Items(s, Port(x, t))| - 1) as nat);
      assert PendingAt(s', x) == PendingAt(s, x) - {last} && last in PendingAt(s, x);
    }
  }

  /** The exec returns: the worker looks at all the queues again, or leaves with its batch. */
  lemma ReturnStaysVisit(c: Config, s: State, p: Tid)
    requires Fits(c, s) && Placed(c, s, p) && PcOf(s, p).Running?
    requires c.nodes[NodeAt(c, p, PcOf(s, p).i)].isState || PcOf(s, p).m < Batch(c, p)
    ensures var s' := Next(c, s, p, Go); var pc := PcOf(s, p);
      && Pending(s') == Pending(s) && (forall q: Port :: Items(s', q) == Items(s, q))
      && if c.nodes[NodeAt(c, p, pc.i)].isState || pc.m + 1 < Batch(c, p) then
           Visits(c, s', p) && PcOf(s', p).i == pc.i && PcOf(s', p).n == pc.n + 1 && PcOf(s', p).m == pc.m + 1
         else PcOf(s', p) == Leaving(pc.i, pc.n + 1)
  {
    GoSamePending(c, s, p);
    GoSameItems(c, s, p);
    NextStaysPlaced(c, s, p, Go, p);
    hide Pending, WorkerGo, WellFormed, PortsFit;
    ReturnsNow(c, s, p);
  }

  lemma ReturnsNow(c: Config, s: State, p: Tid)
    requires Fits(c, s) && Placed(c, s, p) && PcOf(s, p).Running?
    ensures p in c.team
    ensures var pc := PcOf(s, p); var x := NodeAt(c, p, pc.i);
      PcOf(Next(c, s, p, Go), p) ==
        if c.nodes[x].isState || pc.m + 1 < Batch(c, p) then Looking(pc.i, pc.n + 1, c.nodes[x].types, pc.m + 1)
        else Leaving(pc.i, pc.n + 1)
  {
    hide WellFormed, PortsFit, NodeAt;
  }

  /**
    A visit that is left alone empties a state; from a task it takes a batch, or all there is if that
    is less; other nodes lose nothing.  So it is whichever queue the worker looks at first.
   */
  lemma {:induction false} LoneVisit(c: Config, s: State, p: Tid, pick: State -> TypeId) returns (n: nat)
    requires Fits(c, s) && Visits(c, s, p)
    ensures Visited(c, s, Alone(c, s, p, pick, n), p)
    decreases Pending(s), PcOf(s, p).todo
  {
    hide Next, WellFormed, PortsFit, Pending, PendingAt, Visited, Own, NodeAt;
    var s1 := Next(c, s, p, Own(s, p, pick));
    OwnInVisit(s, p, pick);
    if PcOf(s, p).todo == {} {
      n := 1;
      VisitOver(c, s, p);
      assert Alone(c, s1, p, pick, 0) == s1;
    } else {
      LookStaysVisit(c, s, p, Own(s, p, pick).t);
      if PcOf(s1, p).Looking? {
        var m := LoneVisit(c, s1, p, pick);
        n := m + 1;
        SameVisit(c, s, s1, Alone(c, s, p, pick, n), p);
      } else {
        NextStaysPlaced(c, s, p, Own(s, p, pick), p);
        OwnInExec(s1, p, pick);
        ReturnStaysVisit(c, s1, p);
        SamePendingAt(s1, Next(c, s1, p, Go), NodeAt(c, p, PcOf(s, p).i));
        var s2 := Next(c, s1, p, Go);
        if PcOf(s2, p).Looking? {
          var m := LoneVisit(c, s2, p, pick);
          n := m + 2;
          OneMoreVisited(c, s, s2, Alone(c, s2, p, pick, m), p);
        } else {
          n := 2;
          LastVisited(c, s, s2, p);
          assert Alone(c, s2, p, pick, 0) == s2 && Alone(c, s1, p, pick, 1) == s2;
        }
      }
    }
  }

  lemma SamePendingAt(s: State, s': State, x: nat)
    requires Pending(s') == Pending(s)
    ensures PendingAt(s', x) == PendingAt(s, x)
  {
    hide Pending;
  }

  lemma OwnInVisit(s: State, p: Tid, pick: State -> TypeId)
    requires PcOf(s, p).Looking?
    ensures if PcOf(s, p).todo == {} then Own(s, p, pick) == Go
            else Own(s, p, pick).Look? && Own(s, p, pick).t in PcOf(s, p).todo
  {
  }

  lemma OwnInExec(s: State, p: Tid, pick: State -> TypeId)
    requires PcOf(s, p).Running?
    ensures Own(s, p, pick) == Go
  {
  }

  /** The queue looked at was empty. */
  lemma SameVisit(c: Config, s: State, s1: State, s': State, p: Tid)
    requires Fits(c, s) && Visits(c, s, p) && Fits(c, s1) && Visits(c, s1, p) && Visited(c, s1, s', p)
    requires PcOf(s1, p) == PcOf(s, p).(todo := PcOf(s1, p).todo)
    requires Pending(s1) == Pending(s) && forall q: Port :: Items(s1, q) == Items(s, q)
    ensures Visited(c, s, s', p)
  {
    hide WellFormed, PortsFit, Pending, NodeAt, Placed;
  }

  /** One datum was executed, and the visit went on. */
  lemma OneMoreVisited(c: Config, s: State, s2: State, s': State, p: Tid)
    requires Fits(c, s) && Visits(c, s, p) && Fits(c, s2) && Visits(c, s2, p) && Visited(c, s2, s', p)
    requires PcOf(s2, p) == PcOf(s, p).(todo := PcOf(s2, p).todo, n := PcOf(s, p).n + 1, m := PcOf(s, p).m + 1)
    requires var x := NodeAt(c, p, PcOf(s, p).i);
      && PendingAt(s2, x) < PendingAt(s, x) && |PendingAt(s2, x)| == |PendingAt(s, x)| - 1
      && forall q: Port :: q.node != x ==> Items(s2, q) == Items(s, q)
    ensures Visited(c, s, s', p)
  {
    hide WellFormed, PortsFit, PendingAt, NodeAt, Placed;
  }

  /** One datum was executed, and the batch is full. */
  lemma LastVisited(c: Config, s: State, s2: State, p: Tid)
    requires Fits(c, s) && Visits(c, s, p) && PcOf(s2, p) == Leaving(PcOf(s, p).i, PcOf(s, p).n + 1)
    requires var x := NodeAt(c, p, PcOf(s, p).i);
      && !c.nodes[x].isState && PcOf(s, p).m + 1 >= Batch(c, p)
      && PendingAt(s2, x) < PendingAt(s, x) && |PendingAt(s2, x)| == |PendingAt(s, x)| - 1
      && forall q: Port :: q.node != x ==> Items(s2, q) == Items(s, q)
    ensures Visited(c, s, s2, p)
  {
    hide WellFormed, PortsFit, PendingAt, NodeAt;
    if |PendingAt(s, NodeAt(c, p, PcOf(s, p).i))| <= Batch(c, p) - PcOf(s, p).m {
      assert |PendingAt(s2, NodeAt(c, p, PcOf(s, p).i))| == 0;
    }
  }

  // ----- rest before shutdown -------------------------------------------------------------------------------

  ghost predicate StopInv(s: State) { forall p: Tid :: PcOf(s, p).Stopped? ==> p in s.closing }

  lemma NextKeepsStop(c: Config, s: State, p: Tid, a: Action)
    requires Fits(c, s) && StopInv(s)
    ensures StopInv(Next(c, s, p, a))
  {
    hide Next, WellFormed, PortsFit;
    NextStops(c, s, p, a);
    NextStaysApart(c, s, p, a);
  }

  lemma {:induction false} RunKeepsStop(c: Config, s: State, t: seq<(Tid, Action)>)
    requires Fits(c, s) && StopInv(s)
    ensures StopInv(Run(c, s, t))
    decreases |t|
  {
    hide Next, WellFormed, PortsFit, StopInv;
    if t == [] {
    } else {
      NextKeepsStop(c, s, t[0].0, t[0].1);
      RunKeepsStop(c, Next(c, s, t[0].0, t[0].1), t[1..]);
    }
  }

  lemma RestCallsNothing(c: Config, t: seq<(Tid, Action)>, p: Tid)
    requires WellFormed(c) && Rests(c, Run(c, Init(c), t), p)
    ensures !Delivers(PcOf(Run(c, Init(c), t), p))
  {
    hide Next, WellFormed, PortsFit, Init, Run, Own, Rests, MakesSome;
    var s := Run(c, Init(c), t);
    var pick: State -> TypeId := _ => 0;
    CallInRun(c, t, p);
    if Delivers(PcOf(s, p)) {
      SenderInTeam(c, s, p);
      OwnRests(c, s, p, pick);
      OwnServes(c, s, p, pick);
    }
  }

  lemma SenderInTeam(c: Config, s: State, p: Tid)
    requires Fits(c, s) && PlaceInv(c, s, p) && Delivers(PcOf(s, p))
    ensures p in c.team <==> PcOf(s, p).Sending?
  {
  }

  lemma OwnRests(c: Config, s: State, p: Tid, pick: State -> TypeId)
    requires Fits(c, s) && Rests(c, s, p)
    ensures Next(c, s, p, Own(s, p, pick)) == s
  {
    OwnIsMove(s, p, pick);
    hide Next, Own;
  }

  lemma NoneCloser(c: Config, s: State, p: Tid)
    requires Fits(c, s) && p in c.team
    ensures !Closer(c, s, s, p)
  {
    hide WellFormed, PortsFit, Pending, Distance;
  }

  lemma RestScansNothing(c: Config, t: seq<(Tid, Action)>, p: Tid)
    requires WellFormed(c) && p in c.team && c.groups[c.team[p]].nodes != [] && Rests(c, Run(c, Init(c), t), p)
    ensures !Scanning(PcOf(Run(c, Init(c), t), p))
  {
    hide Next, PortsFit, Init, Run, Own, Rests, Placed, Closer;
    var s := Run(c, Init(c), t);
    var pick: State -> TypeId := _ => 0;
    RunStaysPlaced(c, t, p);
    OwnRests(c, s, p, pick);
    if Scanning(PcOf(s, p)) {
      OwnIsCloser(c, s, p, pick);
      NoneCloser(c, s, p);
    }
  }

  /** A worker at rest sleeps without a permit, if nobody has told it to stop. */
  lemma RestSleeps(c: Config, t: seq<(Tid, Action)>, p: Tid)
    requires WellFormed(c) && p in c.team && c.groups[c.team[p]].nodes != [] && Rests(c, Run(c, Init(c), t), p)
    requires p !in Run(c, Init(c), t).closing
    ensures PcOf(Run(c, Init(c), t), p).Parked? && Run(c, Init(c), t).permits[c.team[p]] == 0
  {
    hide Next, PortsFit, Init, Run, Rests, Placed, StopInv;
    var s := Run(c, Init(c), t);
    RunStaysPlaced(c, t, p);
    RestCallsNothing(c, t, p);
    RestScansNothing(c, t, p);
    PlacedStands(c, s, p);
    NoStopAtFirst(c);
    RunKeepsStop(c, Init(c), t);
    NotStopped(s, p);
    if s.permits[c.team[p]] > 0 {
      SleeperWakes(c, s, p);
      GoRests(c, s, p);
    }
  }

  lemma NoStopAtFirst(c: Config)
    requires WellFormed(c)
    ensures StopInv(Init(c))
  {
  }

  lemma NotStopped(s: State, p: Tid)
    requires StopInv(s) && p !in s.closing
    ensures !PcOf(s, p).Stopped?
  {
  }

  lemma SleeperWakes(c: Config, s: State, p: Tid)
    requires Fits(c, s) && p in c.team && PcOf(s, p).Parked? && s.permits[c.team[p]] > 0
    ensures PcOf(Next(c, s, p, Go), p).Woken?
  {
    hide WellFormed, PortsFit;
  }

  lemma GoRests(c: Config, s: State, p: Tid)
    requires Fits(c, s) && Rests(c, s, p)
    ensures Next(c, s, p, Go) == s
  {
    hide Next;
  }

  /**
    The run time comes to rest only when all is done, at the nodes that admit every worker of their
    group: in every run, if no thread can take a step and the group has not been told to stop, every
    datum ever pushed there has been executed, and the workers of the group sleep.
   */
  lemma RestMeansExecuted(c: Config, t: seq<(Tid, Action)>, port: Port)
    requires WellFormed(c) && port in Init(c).queues && Uncapped(c, port.node)
    requires Workers(c, c.nodes[port.node].group) != {}
    requires var s := Run(c, Init(c), t); Serving(c, s, c.nodes[port.node].group) && forall p: Tid :: Rests(c, s, p)
    ensures var s := Run(c, Init(c), t);
      && port in s.queues && s.queues[port].items == [] && |s.queues[port].fates| == |s.queues[port].arrived|
      && (forall k: nat :: k < |s.queues[port].fates| ==> s.queues[port].fates[k] == Done)
      && forall w :: w in Workers(c, c.nodes[port.node].group) ==> PcOf(s, w).Parked?
  {
    hide Next, PortsFit, Run, Init, Rests, Attended, Uncapped, QueueInv;
    var s := Run(c, Init(c), t);
    NothingStranded(c, t, port);
    PortHasGroup(c, s, port);
    var g := c.nodes[port.node].group;
    forall p: Tid ensures !Delivers(PcOf(s, p)) { RestCallsNothing(c, t, p); }
    forall w | w in Workers(c, g) ensures PcOf(s, w).Parked? && s.permits[g] == 0 { RestSleeps(c, t, w); }
    var some := Any(Workers(c, g));
    AttendedAtRest(c, s, port);
    RunInv(c, t);
    assert QueueInv(s, port);
    forall w ensures !PcOf(s, w).Running? {
      CallInRun(c, t, w);
      if PcOf(s, w).Running? {
        RunnerHasNodes(c, s, w);
        RestScansNothing(c, t, w);
      }
    }
    AllExecuted(s, port);
  }

  lemma AttendedAtRest(c: Config, s: State, port: Port)
    requires Fits(c, s) && port in s.queues && Attended(c, s, port) && Serving(c, s, c.nodes[port.node].group)
    requires s.permits[c.nodes[port.node].group] == 0 && forall p: Tid :: !Delivers(PcOf(s, p))
    requires forall w :: w in Workers(c, c.nodes[port.node].group) ==> PcOf(s, w).Parked?
    ensures s.queues[port].items == []
  {
    hide WellFormed, PortsFit, Serving;
    PortHasGroup(c, s, port);
    forall p: Tid ensures !SeesTo(c, s, p, port) {
      if p in c.team && c.team[p] == c.nodes[port.node].group { assert p in Workers(c, c.nodes[port.node].group); }
    }
  }

  lemma RunnerHasNodes(c: Config, s: State, w: Tid)
    requires Fits(c, s) && PlaceInv(c, s, w) && PcOf(s, w).Running?
    ensures w in c.team && c.groups[c.team[w]].nodes != []
  {
  }

  lemma AllExecuted(s: State, port: Port)
    requires port in s.queues && QueueInv(s, port) && s.queues[port].items == []
    requires forall w :: !PcOf(s, w).Running? && !Delivers(PcOf(s, w))
    ensures |s.queues[port].fates| == |s.queues[port].arrived|
    ensures forall k: nat :: k < |s.queues[port].fates| ==> s.queues[port].fates[k] == Done
  {
    var q := s.queues[port];
    assert |q.arrived[|q.fates|..]| == 0;
    forall k: nat | k < |q.fates| ensures q.fates[k] == Done {
      assert q.fates[k].Taken? ==> Holds(PcOf(s, q.fates[k].w), port, k);
    }
  }

  lemma PortHasGroup(c: Config, s: State, port: Port)
    requires Fits(c, s) && port in s.queues
    ensures port.node < |c.nodes| && c.groups[c.nodes[port.node].group].nodes != []
  {
  }
}
