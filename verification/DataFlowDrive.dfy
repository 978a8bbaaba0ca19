/**
  One worker of the data-flow run time on the move while every other thread rests: where it goes
  from any place, and that it always comes to an end of its scan.
 */
module DataFlowDrive {
  import opened Common
  import opened DataFlow
  import opened DataFlowWake

  // ----- composing runs ------------------------------------------------------------------------

  ghost predicate Reach(c: Config, s: State, s': State)
    requires Fits(c, s)
  {
    exists t: seq<(Tid, Action)> :: Run(c, s, t) == s'
  }

  lemma {:induction false} RunAppends(c: Config, s: State, a: seq<(Tid, Action)>, b: seq<(Tid, Action)>)
    requires Fits(c, s)
    ensures Run(c, s, a + b) == Run(c, Run(c, s, a), b)
    decreases |a|
  {
    if a == [] {
      assert a + b == b;
    } else {
      assert (a + b)[0] == a[0] && (a + b)[1..] == a[1..] + b;
      RunAppends(c, Next(c, s, a[0].0, a[0].1), a[1..], b);
    }
  }

  lemma ReachStep(c: Config, s: State, p: Tid, a: Action)
    requires Fits(c, s)
    ensures Reach(c, s, Next(c, s, p, a))
  {
    var t := [(p, a)];
    assert t[1..] == [];
    assert Run(c, Next(c, s, p, a), []) == Next(c, s, p, a);
    assert Run(c, s, t) == Next(c, s, p, a);
  }

  lemma ReachTrans(c: Config, s: State, s1: State, s2: State)
    requires Fits(c, s) && Reach(c, s, s1) && Fits(c, s1) && Reach(c, s1, s2)
    ensures Reach(c, s, s2)
  {
    var t :| Run(c, s, t) == s1;
    var u :| Run(c, s1, u) == s2;
    RunAppends(c, s, t, u);
    hide Run;
  }

  lemma ReachSelf(c: Config, s: State)
    requires Fits(c, s)
    ensures Reach(c, s, s)
  {
    assert Run(c, s, []) == s;
  }

  // ----- who rests where -----------------------------------------------------------------------

  /** The worker is inside, has found the queues empty, and has executed nothing in this pass. */
  predicate Idle(pc: Pc, pos: nat) { pc.Looking? && pc.i == pos && pc.n == 0 && pc.todo == {} }

  /** Some workers stand still, wherever they are; the others sleep, and nobody feeds. */
  predicate AtRest(c: Config, still: map<Tid, Pc>, p: Tid, pc: Pc) {
    if p in still then pc == still[p] else if p in c.team then pc.Parked? else pc.Outside?
  }

  /** Every thread rests, but those in `movers`. */
  ghost predicate Calm(c: Config, s: State, still: map<Tid, Pc>, movers: set<Tid>) {
    && Fits(c, s) && GatesInv(c, s) && s.closing == {} && still.Keys <= c.team.Keys
    && (forall p: Tid :: p !in movers ==> AtRest(c, still, p, PcOf(s, p)))
  }

  function Items(s: State, q: Port): seq<nat> { if q in s.queues then s.queues[q].items else [] }

  /** A place in the scan of worker `w`. */
  predicate Scans(c: Config, w: Tid, pc: Pc)
    requires WellFormed(c) && w in c.team
  {
    && (pc.Woken? || pc.AtLoad? || pc.AtAdd? || pc.Looking? || pc.Running? || pc.Leaving? || pc.Stepping?)
    && 0 < |GroupNodes(c, w)| && (!pc.Woken? ==> AtNode(c, w, pc.i))
    && (pc.Looking? ==> pc.todo <= c.nodes[NodeAt(c, w, pc.i)].types)
  }

  /** Worker `w` is the one thread on the move. */
  ghost predicate Alone(c: Config, s: State, still: map<Tid, Pc>, w: Tid) {
    Calm(c, s, still, {w}) && w in c.team && w !in still && Scans(c, w, PcOf(s, w))
  }

  /** Those that stand still inside node `y`. */
  function At(c: Config, still: map<Tid, Pc>, y: nat): set<Tid>
    requires y < |c.nodes|
  {
    set p |
      p in still && p in c.team && c.team[p] == c.nodes[y].group && IsInside(still[p]) && still[p].i == c.nodes[y].pos
  }

  /** Does node `y` admit a worker, with nobody else inside? */
  predicate Admits(c: Config, still: map<Tid, Pc>, y: nat)
    requires y < |c.nodes|
  {
    |At(c, still, y)| < c.nodes[y].cap
  }

  lemma GateCount(c: Config, s: State, still: map<Tid, Pc>, w: Tid, y: nat)
    requires Calm(c, s, still, {w}) && w in c.team && w !in still && y < |c.nodes| && !IsInside(PcOf(s, w))
    ensures s.gates[y].count == |At(c, still, y)|
  {
    assert GateInv(c, s, y);
    forall p: Tid ensures p in s.gates[y].inside <==> p in At(c, still, y) {
      assert p != w ==> AtRest(c, still, p, PcOf(s, p));
    }
    assert s.gates[y].inside == At(c, still, y);
    hide PortsFit, WellFormed;
  }

  // ----- one step of the scan --------------------------------------------------------------------

  /** The worker's next access: a pop of one of the queues still to look at, or its one other access. */
  ghost function Move(pc: Pc): (a: Action)
    ensures if pc.Looking? && pc.todo != {} then a.Look? && a.t in pc.todo else a.Go?
  {
    if pc.Looking? && pc.todo != {} then Look(Any(pc.todo)) else Go
  }

  /** Where the worker stands after it. */
  ghost predicate Turn(c: Config, still: map<Tid, Pc>, w: Tid, pc: Pc, pc': Pc)
    requires WellFormed(c) && w in c.team && Scans(c, w, pc)
  {
    match pc
    case AtLoad(i, n) => pc' == if Admits(c, still, NodeAt(c, w, i)) then AtAdd(i, n) else Stepping(i, n)
    case AtAdd(i, n) =>
      pc' == if Admits(c, still, NodeAt(c, w, i)) then Looking(i, n, c.nodes[NodeAt(c, w, i)].types, 0)
             else Leaving(i, n)
    case Looking(i, n, todo, m) =>
      if todo == {} then pc' == Leaving(i, n)
      else
        || pc' == Looking(i, n, todo - {Move(pc).t}, m)
        || (pc'.Running? && pc'.i == i && pc'.n == n && pc'.port == Port(NodeAt(c, w, i), Move(pc).t))
    case Running(i, n, m, port, k) =>
      pc' == Looking(i, n + 1, c.nodes[NodeAt(c, w, i)].types, m + 1) || pc' == Leaving(i, n + 1)
    case Leaving(i, n) => pc' == Stepping(i, n)
    case Stepping(i, n) =>
      pc' == if i + 1 < |GroupNodes(c, w)| then AtLoad(i + 1, n) else if n == 0 then Parked else AtLoad(0, 0)
    case _ => pc' == AtLoad(0, 0)
  }

  /** What became of the queues: only a pop changes one. */
  ghost predicate Effect(s: State, s': State, pc: Pc, pc': Pc) {
    if pc.Looking? && pc'.Running? then
      && Items(s, pc'.port) != [] && Items(s', pc'.port) == Items(s, pc'.port)[1..]
      && forall q :: q != pc'.port ==> Items(s', q) == Items(s, q)
    else
      forall q :: Items(s', q) == Items(s, q)
  }

  /** Memory that only other threads change. */
  ghost predicate SameSignals(s: State, s': State) { s'.permits == s.permits && s'.closing == s.closing }

  lemma GateTurns(c: Config, s: State, still: map<Tid, Pc>, w: Tid)
    requires Alone(c, s, still, w) && (PcOf(s, w).AtLoad? || PcOf(s, w).AtAdd?)
    ensures var s' := Next(c, s, w, Go);
      Turn(c, still, w, PcOf(s, w), PcOf(s', w)) && Effect(s, s', PcOf(s, w), PcOf(s', w)) && SameSignals(s, s')
  {
    GateCount(c, s, still, w, NodeAt(c, w, PcOf(s, w).i));
    hide WellFormed, PortsFit, GatesInv, NodeAt;
  }

  lemma GoTurns(c: Config, s: State, still: map<Tid, Pc>, w: Tid)
    requires Alone(c, s, still, w) && Move(PcOf(s, w)).Go? && !PcOf(s, w).AtLoad? && !PcOf(s, w).AtAdd?
    ensures var s' := Next(c, s, w, Go);
      Turn(c, still, w, PcOf(s, w), PcOf(s', w)) && Effect(s, s', PcOf(s, w), PcOf(s', w)) && SameSignals(s, s')
  {
    hide WellFormed, PortsFit, GatesInv, NodeAt, AtRest;
  }

  lemma LookTurns(c: Config, s: State, still: map<Tid, Pc>, w: Tid)
    requires Alone(c, s, still, w) && Move(PcOf(s, w)).Look?
    ensures var s' := Next(c, s, w, Move(PcOf(s, w))); var pc, pc' := PcOf(s, w), PcOf(s', w);
      && Turn(c, still, w, pc, pc') && Effect(s, s', pc, pc') && SameSignals(s, s')
      && (pc'.Looking? ==> Items(s, Port(NodeAt(c, w, pc.i), Move(pc).t)) == [])
  {
    var port := Port(NodeAt(c, w, PcOf(s, w).i), Move(PcOf(s, w)).t);
    assert port in s.queues.Keys;
    hide WellFormed, GatesInv, NodeAt, AtRest;
  }

  // ----- the scan comes to an end -----------------------------------------------------------------

  /** The data in the queues. */
  ghost function Pending(s: State): set<(Port, nat)> {
    set q, k: nat | q in s.queues.Keys && 0 <= k < |s.queues[q].items| :: (q, k)
  }

  /** The most accesses before the worker sleeps, over a group of `len` nodes, apart from pops. */
  function Distance(len: nat, pc: Pc): int {
    var ahead := match pc
      case AtLoad(i, n) => 5 * (len - i) + 4
      case AtAdd(i, n) => 5 * (len - i) + 3
      case Looking(i, n, todo, m) => 5 * (len - i) + 2
      case Leaving(i, n) => 5 * (len - i) + 1
      case Stepping(i, n) => 5 * (len - i)
      case Woken => 5 * len + 5
      case Running(i, n, m, port, k) => 2 * (5 * len + 5)
      case _ => 0;
    if (pc.AtLoad? || pc.AtAdd? || pc.Looking? || pc.Leaving? || pc.Stepping?) && pc.n > 0 then ahead + 5 * len + 5
    else ahead
  }

  function Todo(pc: Pc): set<TypeId> { if pc.Looking? then pc.todo else {} }

  /** Each access pops a datum, or brings the end of the scan nearer. */
  ghost predicate Closer(c: Config, s: State, s': State, w: Tid)
    requires WellFormed(c) && w in c.team
  {
    var len, pc, pc' := |GroupNodes(c, w)|, PcOf(s, w), PcOf(s', w);
    || Pending(s') < Pending(s)
    || (Pending(s') == Pending(s) && 0 <= Distance(len, pc') < Distance(len, pc))
    || (Pending(s') == Pending(s) && 0 <= Distance(len, pc') == Distance(len, pc) && Todo(pc') < Todo(pc))
  }

  lemma TurnIsCloser(c: Config, still: map<Tid, Pc>, w: Tid, pc: Pc, pc': Pc)
    requires WellFormed(c) && w in c.team && Scans(c, w, pc) && Turn(c, still, w, pc, pc') && !pc'.Running?
    ensures var len := |GroupNodes(c, w)|;
      && 0 <= Distance(len, pc') <= Distance(len, pc)
      && (Distance(len, pc') == Distance(len, pc) ==> Todo(pc') < Todo(pc))
  {
    hide WellFormed, NodeAt, Admits;
  }

  lemma TurnScans(c: Config, still: map<Tid, Pc>, w: Tid, pc: Pc, pc': Pc)
    requires WellFormed(c) && w in c.team && Scans(c, w, pc) && Turn(c, still, w, pc, pc')
    ensures pc'.Parked? || Scans(c, w, pc')
  {
    hide WellFormed, NodeAt, Admits;
  }

  lemma EffectPends(s: State, s': State, pc: Pc, pc': Pc)
    requires Effect(s, s', pc, pc') && s'.queues.Keys == s.queues.Keys
    ensures if pc.Looking? && pc'.Running? then Pending(s') < Pending(s) else Pending(s') == Pending(s)
  {
    forall q, k: nat ensures (q, k) in Pending(s) <==> k < |Items(s, q)| {
    }
    forall q, k: nat ensures (q, k) in Pending(s') <==> k < |Items(s', q)| {
    }
    if pc.Looking? && pc'.Running? {
      var last := (pc'.port, (|Items(s, pc'.port)| - 1) as nat);
      assert last in Pending(s) && last !in Pending(s');
    }
  }

  // ----- stretches of one worker's scan ---------------------------------------------------------------

  ghost function After(c: Config, s: State, w: Tid): State
    requires Fits(c, s)
  {
    Next(c, s, w, Move(PcOf(s, w)))
  }

  /** A queue found empty by the access was empty. */
  ghost predicate Found(c: Config, s: State, w: Tid, pc: Pc, pc': Pc)
    requires WellFormed(c) && w in c.team && Scans(c, w, pc)
  {
    pc.Looking? && pc.todo != {} && pc'.Looking? ==> Items(s, Port(NodeAt(c, w, pc.i), Move(pc).t)) == []
  }

  lemma StepTurns(c: Config, s: State, still: map<Tid, Pc>, w: Tid)
    requires Alone(c, s, still, w)
    ensures var s' := After(c, s, w); var pc, pc' := PcOf(s, w), PcOf(s', w);
      && Turn(c, still, w, pc, pc') && Effect(s, s', pc, pc') && SameSignals(s, s') && Found(c, s, w, pc, pc')
  {
    hide Next, Turn, Effect, WellFormed, PortsFit, GatesInv, AtRest;
    if PcOf(s, w).AtLoad? || PcOf(s, w).AtAdd? {
      GateTurns(c, s, still, w);
    } else if Move(PcOf(s, w)).Go? {
      GoTurns(c, s, still, w);
    } else {
      LookTurns(c, s, still, w);
    }
  }

  /** Queues of the nodes of other groups do not change. */
  ghost predicate Apart(c: Config, s: State, s': State, g: nat) {
    forall q: Port :: q.node < |c.nodes| && c.nodes[q.node].group != g ==> Items(s', q) == Items(s, q)
  }

  /** Worker `w` alone gets the state from `s` to `s'`, and only its own group's queues change. */
  ghost predicate Works(c: Config, s: State, s': State, w: Tid)
    requires Fits(c, s) && w in c.team
  {
    && Fits(c, s') && Reach(c, s, s') && OthersStay(s, s', w) && SameSignals(s, s') && Apart(c, s, s', c.team[w])
  }

  lemma WorksSelf(c: Config, s: State, w: Tid)
    requires Fits(c, s) && w in c.team
    ensures Works(c, s, s, w)
  {
    ReachSelf(c, s);
    hide Reach, Fits;
  }

  lemma WorksTrans(c: Config, s: State, s1: State, s2: State, w: Tid)
    requires Fits(c, s) && w in c.team && Works(c, s, s1, w) && Works(c, s1, s2, w)
    ensures Works(c, s, s2, w)
  {
    hide Fits, Reach;
    ReachTrans(c, s, s1, s2);
  }

  /** The step is a run, and only thread `p` moves. */
  lemma OneStep(c: Config, s: State, p: Tid, a: Action)
    requires Fits(c, s)
    ensures Reach(c, s, Next(c, s, p, a)) && OthersStay(s, Next(c, s, p, a), p)
  {
    hide *;
    ReachStep(c, s, p, a);
    NextStaysApart(c, s, p, a);
  }

  lemma TurnIsApart(c: Config, s: State, s': State, still: map<Tid, Pc>, w: Tid, pc: Pc, pc': Pc)
    requires WellFormed(c) && w in c.team && Scans(c, w, pc) && Turn(c, still, w, pc, pc') && Effect(s, s', pc, pc')
    ensures Apart(c, s, s', c.team[w])
  {
    hide WellFormed, Admits;
  }

  lemma StepWorks(c: Config, s: State, still: map<Tid, Pc>, w: Tid)
    requires Alone(c, s, still, w)
    ensures Works(c, s, After(c, s, w), w)
  {
    hide Reach, OthersStay, Turn, Effect, Apart, WellFormed, PortsFit, GatesInv, AtRest, Next, Scans;
    StepTurns(c, s, still, w);
    OneStep(c, s, w, Move(PcOf(s, w)));
    TurnIsApart(c, s, After(c, s, w), still, w, PcOf(s, w), PcOf(After(c, s, w), w));
  }

  lemma StepIsCloser(c: Config, s: State, still: map<Tid, Pc>, w: Tid)
    requires Alone(c, s, still, w)
    ensures Closer(c, s, After(c, s, w), w)
  {
    var s' := After(c, s, w);
    hide Turn, Effect, WellFormed, GatesInv, AtRest, Next, Pending, Distance, Scans;
    StepTurns(c, s, still, w);
    assert s'.queues.Keys == s.queues.Keys;
    EffectPends(s, s', PcOf(s, w), PcOf(s', w));
    if !PcOf(s', w).Running? {
      TurnIsCloser(c, still, w, PcOf(s, w), PcOf(s', w));
    } else {
      TurnRuns(c, still, w, PcOf(s, w), PcOf(s', w));
    }
  }

  lemma TurnRuns(c: Config, still: map<Tid, Pc>, w: Tid, pc: Pc, pc': Pc)
    requires WellFormed(c) && w in c.team && Scans(c, w, pc) && Turn(c, still, w, pc, pc') && pc'.Running?
    ensures pc.Looking? && AtNode(c, w, pc'.i) && NodeAt(c, w, pc'.i) == pc'.port.node
  {
    hide WellFormed, NodeAt, Admits;
  }

  /** What the threads at rest do is not touched. */
  lemma StaysCalm(c: Config, s: State, s': State, still: map<Tid, Pc>, p: Tid)
    requires Calm(c, s, still, {p}) && Fits(c, s') && Reach(c, s, s') && OthersStay(s, s', p) && s'.closing == {}
    ensures Calm(c, s', still, {p})
  {
    hide WellFormed, PortsFit, GatesInv, AtRest, Workers;
    var t :| Run(c, s, t) == s';
    RunKeepsGates(c, s, t);
  }

  lemma StepStaysAlone(c: Config, s: State, still: map<Tid, Pc>, w: Tid)
    requires Alone(c, s, still, w)
    ensures PcOf(After(c, s, w), w).Parked? || Alone(c, After(c, s, w), still, w)
    ensures Calm(c, After(c, s, w), still, {w})
  {
    var s' := After(c, s, w);
    hide Turn, Effect, WellFormed, PortsFit, GatesInv, AtRest, Next, Reach, Scans, OthersStay;
    StepTurns(c, s, still, w);
    OneStep(c, s, w, Move(PcOf(s, w)));
    StaysCalm(c, s, s', still, w);
    TurnScans(c, still, w, PcOf(s, w), PcOf(s', w));
  }

  /** One step of the scan: all of the above. */
  lemma Step(c: Config, s: State, still: map<Tid, Pc>, w: Tid) returns (s': State)
    requires Alone(c, s, still, w)
    ensures Works(c, s, s', w) && Closer(c, s, s', w) && (PcOf(s', w).Parked? || Alone(c, s', still, w))
    ensures Calm(c, s', still, {w})
    ensures Turn(c, still, w, PcOf(s, w), PcOf(s', w)) && Effect(s, s', PcOf(s, w), PcOf(s', w))
    ensures Found(c, s, w, PcOf(s, w), PcOf(s', w))
  {
    s' := After(c, s, w);
    StepTurns(c, s, still, w);
    StepWorks(c, s, still, w);
    StepIsCloser(c, s, still, w);
    StepStaysAlone(c, s, still, w);
    hide *;
  }

  // ----- where the scan leads --------------------------------------------------------------------------

  /** The worker comes to position `pos` before it sleeps, or stands there with nothing executed yet. */
  predicate Coming(pc: Pc, pos: nat) {
    match pc
    case Woken => true
    case AtLoad(i, n) => n > 0 || i <= pos
    case AtAdd(i, n) => n > 0 || i <= pos
    case Looking(i, n, todo, m) => n > 0 || i <= pos
    case Running(i, n, m, port, k) => true
    case Leaving(i, n) => n > 0 || i < pos
    case Stepping(i, n) => n > 0 || i < pos
    case _ => false
  }

  lemma TurnStaysComing(c: Config, still: map<Tid, Pc>, w: Tid, x: nat, pc: Pc, pc': Pc)
    requires WellFormed(c) && w in c.team && Scans(c, w, pc) && Turn(c, still, w, pc, pc')
    requires x < |c.nodes| && c.nodes[x].group == c.team[w] && Admits(c, still, x)
    requires Coming(pc, c.nodes[x].pos) && !Idle(pc, c.nodes[x].pos)
    ensures Coming(pc', c.nodes[x].pos)
  {
    assert c.nodes[x].pos < |GroupNodes(c, w)|;
    if (pc.AtLoad? || pc.AtAdd?) && pc.i == c.nodes[x].pos {
      OneNodePerPosition(c, w, pc.i, x);
    }
    hide WellFormed, NodeAt, Admits;
  }

  /** A worker on its way to an open node ends up inside with nothing to do. */
  lemma {:induction false} ComesInside(c: Config, s: State, still: map<Tid, Pc>, w: Tid, x: nat) returns (s': State)
    requires Alone(c, s, still, w) && x < |c.nodes| && c.team[w] == c.nodes[x].group && Admits(c, still, x)
    requires Coming(PcOf(s, w), c.nodes[x].pos)
    ensures Works(c, s, s', w) && Calm(c, s', still, {w}) && Idle(PcOf(s', w), c.nodes[x].pos)
    decreases Pending(s), Distance(|GroupNodes(c, w)|, PcOf(s, w)), Todo(PcOf(s, w))
  {
    hide GatesInv, AtRest, PortsFit, Works, Turn, Effect, Found, WellFormed, Scans, Coming, Idle;
    hide Pending, Distance, Todo;
    if Idle(PcOf(s, w), c.nodes[x].pos) {
      s' := s;
      WorksSelf(c, s, w);
    } else {
      var s1 := Step(c, s, still, w);
      TurnStaysComing(c, still, w, x, PcOf(s, w), PcOf(s1, w));
      ParkedIsNotComing(PcOf(s1, w), c.nodes[x].pos);
      s' := ComesInside(c, s1, still, w, x);
      WorksTrans(c, s, s1, s', w);
    }
  }

  /** The worker comes to the door of the node at position `pos` with nothing executed in the pass. */
  predicate Nearing(pc: Pc, pos: nat) {
    match pc
    case Woken => true
    case AtLoad(i, n) => n > 0 || i <= pos
    case AtAdd(i, n) => n > 0 || i <= pos
    case Looking(i, n, todo, m) => n > 0 || i < pos
    case Running(i, n, m, port, k) => true
    case Leaving(i, n) => n > 0 || i < pos
    case Stepping(i, n) => n > 0 || i < pos
    case _ => false
  }

  lemma TurnStaysNearing(c: Config, still: map<Tid, Pc>, w: Tid, x: nat, pc: Pc, pc': Pc)
    requires WellFormed(c) && w in c.team && Scans(c, w, pc) && Turn(c, still, w, pc, pc')
    requires x < |c.nodes| && c.nodes[x].group == c.team[w] && Admits(c, still, x)
    requires Nearing(pc, c.nodes[x].pos) && pc != AtAdd(c.nodes[x].pos, 0)
    ensures Nearing(pc', c.nodes[x].pos) && !pc'.Parked?
  {
    assert c.nodes[x].pos < |GroupNodes(c, w)|;
    if pc.AtLoad? && pc.i == c.nodes[x].pos {
      OneNodePerPosition(c, w, pc.i, x);
    }
    hide WellFormed, NodeAt, Admits;
  }

  /** A worker on its way can stop at the door: between the check on `thread_count` and the `fetch_add`. */
  lemma {:induction false} ComesToDoor(c: Config, s: State, still: map<Tid, Pc>, w: Tid, x: nat) returns (s': State)
    requires Alone(c, s, still, w) && x < |c.nodes| && c.team[w] == c.nodes[x].group && Admits(c, still, x)
    requires Nearing(PcOf(s, w), c.nodes[x].pos)
    ensures Works(c, s, s', w) && Calm(c, s', still, {w}) && PcOf(s', w) == AtAdd(c.nodes[x].pos, 0)
    decreases Pending(s), Distance(|GroupNodes(c, w)|, PcOf(s, w)), Todo(PcOf(s, w))
  {
    hide GatesInv, AtRest, PortsFit, Works, Turn, Effect, Found, WellFormed, Scans, Nearing;
    hide Pending, Distance, Todo;
    if PcOf(s, w) == AtAdd(c.nodes[x].pos, 0) {
      s' := s;
      WorksSelf(c, s, w);
    } else {
      var s1 := Step(c, s, still, w);
      TurnStaysNearing(c, still, w, x, PcOf(s, w), PcOf(s1, w));
      s' := ComesToDoor(c, s1, still, w, x);
      WorksTrans(c, s, s1, s', w);
    }
  }

  lemma ParkedIsNotComing(pc: Pc, pos: nat)
    requires Coming(pc, pos)
    ensures !pc.Parked?
  {
  }

  lemma TurnStaysBound(c: Config, still: map<Tid, Pc>, w: Tid, pc: Pc, pc': Pc, q: Port)
    requires WellFormed(c) && w in c.team && Scans(c, w, pc) && Turn(c, still, w, pc, pc')
    requires q.node < |c.nodes| && c.nodes[q.node].group == c.team[w] && Admits(c, still, q.node)
    requires q.typ in c.nodes[q.node].types && Bound(pc, c.nodes[q.node].pos, q.typ)
    ensures
      || Bound(pc', c.nodes[q.node].pos, q.typ)
      || (pc.Looking? && pc.todo != {} && pc'.Looking? && q == Port(NodeAt(c, w, pc.i), Move(pc).t))
  {
    assert c.nodes[q.node].pos < |GroupNodes(c, w)|;
    if !pc.Woken? && pc.i == c.nodes[q.node].pos {
      OneNodePerPosition(c, w, pc.i, q.node);
    }
    hide WellFormed, NodeAt, Admits;
  }

  lemma EffectKeepsData(s: State, s': State, pc: Pc, pc': Pc, q: Port)
    requires Effect(s, s', pc, pc') && Items(s, q) != [] && !(pc'.Running? && pc'.port == q)
    ensures Items(s', q) != []
  {
  }

  lemma ParkedIsNotBound(pc: Pc, pos: nat, t: TypeId)
    requires Bound(pc, pos, t)
    ensures !pc.Parked?
  {
  }

  /** A worker bound for a queue with data, at an open node, comes to execute a datum of it. */
  lemma {:induction false} Fetches(c: Config, s: State, still: map<Tid, Pc>, w: Tid, q: Port) returns (s': State)
    requires Alone(c, s, still, w) && Items(s, q) != []
    requires q.node < |c.nodes| && c.nodes[q.node].group == c.team[w] && Admits(c, still, q.node)
    requires q.typ in c.nodes[q.node].types && Bound(PcOf(s, w), c.nodes[q.node].pos, q.typ)
    ensures Works(c, s, s', w) && Alone(c, s', still, w) && PcOf(s', w).Running?
    ensures NodeAt(c, w, PcOf(s', w).i) == q.node
    decreases Pending(s), Distance(|GroupNodes(c, w)|, PcOf(s, w)), Todo(PcOf(s, w))
  {
    var s1 := Step(c, s, still, w);
    var pc, pc' := PcOf(s, w), PcOf(s1, w);
    hide Calm, Works, Turn, Effect, WellFormed, Bound, Pending, Distance, Todo, Admits, NodeAt;
    TurnStaysBound(c, still, w, pc, pc', q);
    if pc'.Running? { TurnRuns(c, still, w, pc, pc'); }
    if pc'.Running? && pc'.port == q {
      s' := s1;
    } else {
      EffectKeepsData(s, s1, pc, pc', q);
      ParkedIsNotBound(pc', c.nodes[q.node].pos, q.typ);
      s' := Fetches(c, s1, still, w, q);
      WorksTrans(c, s, s1, s', w);
    }
  }

  /** Every scan ends with the worker asleep. */
  lemma {:induction false} Parks(c: Config, s: State, still: map<Tid, Pc>, w: Tid) returns (s': State)
    requires Alone(c, s, still, w)
    ensures Works(c, s, s', w) && Calm(c, s', still, {w}) && PcOf(s', w).Parked?
    decreases Pending(s), Distance(|GroupNodes(c, w)|, PcOf(s, w)), Todo(PcOf(s, w))
  {
    hide GatesInv, AtRest, PortsFit, Works, Turn, Effect, Found, WellFormed, Scans, Pending, Distance, Todo;
    s' := Step(c, s, still, w);
    if !PcOf(s', w).Parked? {
      var s1 := s';
      s' := Parks(c, s1, still, w);
      WorksTrans(c, s, s1, s', w);
    }
  }

  // ----- scans past a full node --------------------------------------------------------------------------

  /** All that stand still do so inside node `x`. */
  ghost predicate Crowd(c: Config, still: map<Tid, Pc>, x: nat) {
    x < |c.nodes| && At(c, still, x) == still.Keys
  }

  lemma OthersAdmit(c: Config, still: map<Tid, Pc>, x: nat, y: nat)
    requires WellFormed(c) && Crowd(c, still, x) && y < |c.nodes| && y != x && 0 < c.nodes[y].cap
    ensures Admits(c, still, y)
  {
    forall p ensures p !in At(c, still, y) {
      assert p in still ==> p in At(c, still, x);
    }
    assert At(c, still, y) == {};
  }

  /** Not inside node `x`, and not about to enter it. */
  predicate Outdoors(pc: Pc, pos: nat) { IsInside(pc) || pc.AtAdd? ==> pc.i != pos }

  /** The queues of the open nodes of the group but `x` are empty, or the worker will look at them. */
  ghost predicate Swept(c: Config, s: State, x: nat, pc: Pc)
    requires x < |c.nodes|
  {
    forall q: Port {:trigger Items(s, q)} :: OpenBeside(c, x, q) ==>
      Bound(pc, c.nodes[q.node].pos, q.typ) || Items(s, q) == []
  }

  /** A queue of another open node of the group. */
  predicate OpenBeside(c: Config, x: nat, q: Port)
    requires x < |c.nodes|
  {
    && q.node < |c.nodes| && c.nodes[q.node].group == c.nodes[x].group && q.node != x && 0 < c.nodes[q.node].cap
    && q.typ in c.nodes[q.node].types
  }

  ghost predicate Cleared(c: Config, s: State, x: nat)
    requires x < |c.nodes|
  {
    forall q: Port :: OpenBeside(c, x, q) ==> Items(s, q) == []
  }

  /** The queues of node `x` have not changed. */
  ghost predicate Untouched(s: State, s': State, x: nat) {
    forall q: Port :: q.node == x ==> Items(s', q) == Items(s, q)
  }

  lemma TurnStaysOutdoors(c: Config, still: map<Tid, Pc>, w: Tid, x: nat, pc: Pc, pc': Pc)
    requires WellFormed(c) && w in c.team && Scans(c, w, pc) && Turn(c, still, w, pc, pc')
    requires x < |c.nodes| && c.nodes[x].group == c.team[w] && !Admits(c, still, x)
    requires Outdoors(pc, c.nodes[x].pos)
    ensures Outdoors(pc', c.nodes[x].pos)
  {
    if !pc.Woken? && pc.i == c.nodes[x].pos {
      OneNodePerPosition(c, w, pc.i, x);
    }
    hide WellFormed, NodeAt, Admits;
  }

  lemma TurnStaysSwept(c: Config, s: State, s': State, still: map<Tid, Pc>, w: Tid, x: nat)
    requires Alone(c, s, still, w) && Crowd(c, still, x) && c.team[w] == c.nodes[x].group
    requires Turn(c, still, w, PcOf(s, w), PcOf(s', w)) && Effect(s, s', PcOf(s, w), PcOf(s', w))
    requires Found(c, s, w, PcOf(s, w), PcOf(s', w)) && Swept(c, s, x, PcOf(s, w))
    ensures Swept(c, s', x, PcOf(s', w))
  {
    var pc, pc' := PcOf(s, w), PcOf(s', w);
    hide GatesInv, AtRest, PortsFit, Turn, WellFormed, Bound, Scans;
    forall q: Port | OpenBeside(c, x, q) ensures Bound(pc', c.nodes[q.node].pos, q.typ) || Items(s', q) == [] {
      if Bound(pc, c.nodes[q.node].pos, q.typ) {
        OthersAdmit(c, still, x, q.node);
        TurnStaysBound(c, still, w, pc, pc', q);
      } else {
        assert Items(s, q) == [];
      }
    }
  }

  lemma TurnLeavesUntouched(c: Config, s: State, s': State, still: map<Tid, Pc>, w: Tid, x: nat, pc: Pc, pc': Pc)
    requires WellFormed(c) && w in c.team && Scans(c, w, pc) && x < |c.nodes| && c.nodes[x].group == c.team[w]
    requires Turn(c, still, w, pc, pc') && Effect(s, s', pc, pc') && Outdoors(pc, c.nodes[x].pos)
    ensures Untouched(s, s', x)
  {
    if pc.Looking? && pc'.Running? {
      TurnRuns(c, still, w, pc, pc');
    }
    hide WellFormed, Admits;
  }

  /** A worker that finds node `x` full sleeps after it has emptied the other open nodes. */
  lemma {:induction false} ParksOutside(c: Config, s: State, still: map<Tid, Pc>, w: Tid, x: nat) returns (s': State)
    requires Alone(c, s, still, w) && Crowd(c, still, x) && c.team[w] == c.nodes[x].group && !Admits(c, still, x)
    requires Outdoors(PcOf(s, w), c.nodes[x].pos) && Swept(c, s, x, PcOf(s, w))
    ensures Works(c, s, s', w) && Calm(c, s', still, {w}) && PcOf(s', w).Parked?
    ensures Untouched(s, s', x) && Cleared(c, s', x)
    decreases Pending(s), Distance(|GroupNodes(c, w)|, PcOf(s, w)), Todo(PcOf(s, w))
  {
    hide GatesInv, AtRest, PortsFit, Works, Turn, Effect, Found, WellFormed, Scans, Pending, Distance, Todo;
    hide Swept, Outdoors;
    hide Cleared;
    s' := Step(c, s, still, w);
    var pc, pc' := PcOf(s, w), PcOf(s', w);
    TurnStaysOutdoors(c, still, w, x, pc, pc');
    TurnStaysSwept(c, s, s', still, w, x);
    TurnLeavesUntouched(c, s, s', still, w, x, pc, pc');
    if pc'.Parked? {
      ParkedHasCleared(c, s', x, pc');
    } else {
      var s1 := s';
      s' := ParksOutside(c, s1, still, w, x);
      WorksTrans(c, s, s1, s', w);
    }
  }

  lemma ParkedHasCleared(c: Config, s: State, x: nat, pc: Pc)
    requires x < |c.nodes| && Swept(c, s, x, pc) && pc.Parked?
    ensures Cleared(c, s, x)
  {
  }

  // ----- a worker leaves and goes to sleep ----------------------------------------------------------------

  /** Past the queues of the node at position `pos`, with nothing executed in this pass. */
  predicate Past(pc: Pc, pos: nat) {
    match pc
    case AtLoad(i, n) => n == 0 && pos < i
    case AtAdd(i, n) => n == 0 && pos < i
    case Looking(i, n, todo, m) => n == 0 && (pos < i || (i == pos && todo == {}))
    case Leaving(i, n) => n == 0 && pos <= i
    case Stepping(i, n) => n == 0 && pos <= i
    case Parked => true
    case _ => false
  }

  /** A worker that looks at queues has been admitted. */
  lemma LookersAreAdmitted(c: Config, s: State, still: map<Tid, Pc>, w: Tid)
    requires Alone(c, s, still, w) && PcOf(s, w).Looking?
    ensures 0 < c.nodes[NodeAt(c, w, PcOf(s, w).i)].cap
  {
    var y := NodeAt(c, w, PcOf(s, w).i);
    assert GateInv(c, s, y) && w in s.gates[y].working;
    hide WellFormed, PortsFit, AtRest, NodeAt;
  }

  lemma TurnStaysPast(c: Config, s: State, s': State, still: map<Tid, Pc>, w: Tid, x: nat)
    requires Alone(c, s, still, w) && x < |c.nodes| && c.team[w] == c.nodes[x].group && Cleared(c, s, x)
    requires Turn(c, still, w, PcOf(s, w), PcOf(s', w)) && Effect(s, s', PcOf(s, w), PcOf(s', w))
    requires Past(PcOf(s, w), c.nodes[x].pos)
    ensures Past(PcOf(s', w), c.nodes[x].pos) && forall q :: Items(s', q) == Items(s, q)
  {
    var pc, pc' := PcOf(s, w), PcOf(s', w);
    if pc.Looking? && pc'.Running? {
      TurnRuns(c, still, w, pc, pc');
      LookersAreAdmitted(c, s, still, w);
      assert false;
    }
    hide GatesInv, AtRest, PortsFit, WellFormed, NodeAt, Admits;
  }

  /** A worker past the queues of node `x` sleeps, if the open nodes it comes past have no data. */
  lemma {:induction false} Sleeps(c: Config, s: State, still: map<Tid, Pc>, w: Tid, x: nat) returns (s': State)
    requires Alone(c, s, still, w) && x < |c.nodes| && c.team[w] == c.nodes[x].group && Cleared(c, s, x)
    requires Past(PcOf(s, w), c.nodes[x].pos)
    ensures Works(c, s, s', w) && Calm(c, s', still, {w}) && PcOf(s', w).Parked?
    ensures forall q :: Items(s', q) == Items(s, q)
    decreases Pending(s), Distance(|GroupNodes(c, w)|, PcOf(s, w)), Todo(PcOf(s, w))
  {
    hide GatesInv, AtRest, PortsFit, Works, Turn, Effect, Found, WellFormed, Scans, Pending, Distance, Todo, Past;
    s' := Step(c, s, still, w);
    TurnStaysPast(c, s, s', still, w, x);
    if !PcOf(s', w).Parked? {
      var s1 := s';
      s' := Sleeps(c, s1, still, w, x);
      WorksTrans(c, s, s1, s', w);
    }
  }
}
