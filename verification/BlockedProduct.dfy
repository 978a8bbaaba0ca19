/**
  The blocked matrix product run as a data flow: split, product state, product task,
  sum state and sum task, joined by queues that may deliver in any order.  `Next` is one
  handler call; a run is any sequence of enabled calls.
 */
module BlockedProduct {

  import opened Tiles

  type Size = n: nat | n > 0 witness 1

  function Times(m: nat, n: nat): nat { m * n }

  /** The place of a tile in its grid. */
  datatype Place = Place(row: nat, col: nat)

  /** The partial product A(i,k) * B(k,j), which is to be added to C(i,j). */
  datatype Job = Job(i: nat, k: nat, j: nat) {
    function Home(): Place { Place(i, j) }
  }

  /** The matrices: A is rows by inner, B inner by cols, C rows by cols and initially `c0`. */
  datatype Matrices = Matrices(rows: nat, cols: nat, inner: nat, ts: Size, a: Entries, b: Entries, c0: Entries)

  /** What the states are given: the matrices, the extents of the tile grids, and the count. */
  datatype Problem = Problem(mats: Matrices, TM: nat, TN: nat, TK: nat, total: nat) {
    predicate IsA(t: Place) { t.row < TM && t.col < TK }
    predicate IsB(t: Place) { t.row < TK && t.col < TN }
    predicate IsC(t: Place) { t.row < TM && t.col < TN }
    predicate IsJob(x: Job) { x.i < TM && x.k < TK && x.j < TN }
    function Jobs(): set<Job> { set i: nat, k: nat, j: nat | i < TM && k < TK && j < TN :: Job(i, k, j) }
  }

  /** The extents are those of the tile grids. */
  predicate Cut(p: Problem) {
    && p.TM == TileCount(p.mats.rows, p.mats.ts)
    && p.TN == TileCount(p.mats.cols, p.mats.ts)
    && p.TK == TileCount(p.mats.inner, p.mats.ts)
  }

  /** The extents and the count are those the driver computes from the matrices. */
  predicate Fits(p: Problem) { Cut(p) && p.total == Times(Times(p.TM, p.TN), p.TK) }

  /** The count is the number of partial products. */
  predicate Counted(p: Problem) { p.total == |p.Jobs()| }

  /** The count does not reach zero before the last partial product; if it starts higher, it never does. */
  predicate Covered(p: Problem) { p.total >= |p.Jobs()| }

  // ----- the product state: a join ----------------------------------------------------

  /** The jobs sent when A tile `t` arrives, for the first `n` tile columns. */
  function AJobs(b: set<Place>, t: Place, n: nat): seq<Job> {
    if n == 0 then [] else
      AJobs(b, t, n - 1) + if Place(t.col, n - 1) in b then [Job(t.row, t.col, n - 1)] else []
  }

  /** The jobs sent when B tile `t` arrives, for the first `n` tile rows. */
  function BJobs(a: set<Place>, t: Place, n: nat): seq<Job> {
    if n == 0 then [] else
      BJobs(a, t, n - 1) + if Place(n - 1, t.row) in a then [Job(n - 1, t.row, t.col)] else []
  }

  lemma OneMoreHas(jobs: seq<Job>, y: Job, more: bool, x: Job)
    ensures multiset(jobs + if more then [y] else [])[x] == multiset(jobs)[x] + if more && x == y then 1 else 0
  {
  }

  lemma {:induction false} AJobsHas(b: set<Place>, t: Place, n: nat, x: Job)
    ensures multiset(AJobs(b, t, n))[x] ==
            if x.i == t.row && x.k == t.col && x.j < n && Place(x.k, x.j) in b then 1 else 0
  {
    if n == 0 {
    } else {
      AJobsHas(b, t, n - 1, x);
      OneMoreHas(AJobs(b, t, n - 1), Job(t.row, t.col, n - 1), Place(t.col, n - 1) in b, x);
    }
  }

  lemma {:induction false} BJobsHas(a: set<Place>, t: Place, n: nat, x: Job)
    ensures multiset(BJobs(a, t, n))[x] ==
            if x.k == t.row && x.j == t.col && x.i < n && Place(x.i, x.k) in a then 1 else 0
  {
    if n == 0 {
    } else {
      BJobsHas(a, t, n - 1, x);
      OneMoreHas(BJobs(a, t, n - 1), Job(n - 1, t.row, t.col), Place(n - 1, t.row) in a, x);
    }
  }

  // ----- the sum state: an accumulator --------------------------------------------------

  datatype SumData = SumData(queues: map<Place, seq<Job>>, slots: set<Place>, count: int)

  /** What a handler of the sum state sends on. */
  datatype Sent = Nothing | ToSum(x: Job) | Result(c: Place)

  function ExecC(d: SumData, c: Place): (SumData, Sent)
    requires c in d.queues
  {
    var q := d.queues[c];
    if |q| > 0 then (d.(queues := d.queues[c := q[..|q| - 1]]), ToSum(q[|q| - 1]))
    else (d.(slots := d.slots + {c}), Nothing)
  }

  function ExecP(d: SumData, x: Job): (SumData, Sent)
    requires x.Home() in d.queues
  {
    if x.Home() in d.slots then (d.(slots := d.slots - {x.Home()}), ToSum(x))
    else (d.(queues := d.queues[x.Home() := d.queues[x.Home()] + [x]]), Nothing)
  }

  function ExecPC(d: SumData, c: Place): (SumData, Sent)
    requires c in d.queues
  {
    var d := d.(count := d.count - 1);
    if d.count == 0 then (d, Result(c)) else ExecC(d, c)
  }

  // ----- the machine ----------------------------------------------------------------------

  /** Tiles cut by the split task and not yet delivered. */
  datatype Arrivals = Arrivals(a: set<Place>, b: set<Place>, c: set<Place>)

  /** Messages under way: to the product task, to the sum state, to the sum task and back. */
  datatype Flow = Flow(jobs: multiset<Job>, parts: multiset<Job>, pairs: multiset<Job>, summed: multiset<Job>)

  /** Where a C tile is: yet to arrive, in its slot, under way with the partial product of inner tile k, or sent out. */
  datatype Holder = Away | Slot | With(k: nat) | Out

  /** What happened so far; no handler reads it. */
  datatype Past = Past(sent: multiset<Job>, queued: multiset<Job>, added: set<Job>, done: set<Job>,
                       holder: map<Place, Holder>)

  datatype State = State(wait: Arrivals, a: set<Place>, b: set<Place>, flow: Flow, sum: SumData,
                         c: Entries, results: seq<Place>, past: Past)

  datatype Step = ArriveA(t: Place) | ArriveB(t: Place) | ArriveC(t: Place)
                | Multiply(x: Job) | TakeP(x: Job) | Add(x: Job) | TakePC(x: Job)

  function Places(m: nat, n: nat): (r: set<Place>)
    ensures forall t :: t in r <==> t.row < m && t.col < n
  {
    set i: nat, j: nat | i < m && j < n :: Place(i, j)
  }

  function Start(p: Problem): State {
    State(Arrivals(Places(p.TM, p.TK), Places(p.TK, p.TN), Places(p.TM, p.TN)), {}, {},
          Flow(multiset{}, multiset{}, multiset{}, multiset{}),
          SumData(map t | t in Places(p.TM, p.TN) :: [], {}, p.total), p.mats.c0, [],
          Past(multiset{}, multiset{}, {}, {}, map t | t in Places(p.TM, p.TN) :: Away))
  }

  predicate Enabled(s: State, st: Step) {
    match st
    case ArriveA(t) => t in s.wait.a
    case ArriveB(t) => t in s.wait.b
    case ArriveC(t) => t in s.wait.c && t in s.sum.queues
    case Multiply(x) => x in s.flow.jobs
    case TakeP(x) => x in s.flow.parts && x.Home() in s.sum.queues
    case Add(x) => x in s.flow.pairs
    case TakePC(x) => x in s.flow.summed && x.Home() in s.sum.queues
  }

  /** Entry (r, c) is in the C tile of job `x`. */
  predicate InTile(m: Matrices, x: Job, r: nat, c: nat) {
    && x.i < TileCount(m.rows, m.ts) && x.j < TileCount(m.cols, m.ts)
    && Covers(TileAt(m.rows, m.cols, m.ts, x.i, x.j), r, c)
  }

  /** What inner tile `k` contributes to entry (r, c). */
  function BlockAt(m: Matrices, k: nat, r: nat, c: nat): int {
    if k < TileCount(m.inner, m.ts) then Block(m.a, m.b, m.inner, m.ts, r, c, k) else 0
  }

  /** The sum task on job `x`: its block is added to the entries of its C tile. */
  function AddBlock(m: Matrices, c: Entries, x: Job): Entries {
    (row: nat, col: nat) => if InTile(m, x, row, col) then c(row, col) + BlockAt(m, x.k, row, col) else c(row, col)
  }

  function SendC(s: State, d: SumData, c: Place, sent: Sent): State {
    var s := s.(sum := d);
    match sent
    case Nothing => s.(past := s.past.(holder := s.past.holder[c := Slot]))
    case ToSum(x) => s.(flow := s.flow.(pairs := s.flow.pairs + multiset{x}),
                        past := s.past.(queued := s.past.queued - multiset{x}, holder := s.past.holder[c := With(x.k)]))
    case Result(c) => s.(results := s.results + [c], past := s.past.(holder := s.past.holder[c := Out]))
  }

  function SendP(s: State, d: SumData, x: Job, sent: Sent): State {
    var s := s.(sum := d);
    if sent.Nothing? then s.(past := s.past.(queued := s.past.queued + multiset{x}))
    else s.(flow := s.flow.(pairs := s.flow.pairs + multiset{x}),
            past := s.past.(holder := s.past.holder[x.Home() := With(x.k)]))
  }

  function Next(p: Problem, s: State, st: Step): State
    requires Enabled(s, st)
  {
    var f := s.flow;
    match st
    case ArriveA(t) =>
      var jobs := multiset(AJobs(s.b, t, p.TN));
      s.(wait := s.wait.(a := s.wait.a - {t}), a := s.a + {t}, flow := f.(jobs := f.jobs + jobs),
         past := s.past.(sent := s.past.sent + jobs))
    case ArriveB(t) =>
      var jobs := multiset(BJobs(s.a, t, p.TM));
      s.(wait := s.wait.(b := s.wait.b - {t}), b := s.b + {t}, flow := f.(jobs := f.jobs + jobs),
         past := s.past.(sent := s.past.sent + jobs))
    case ArriveC(t) =>
      var (d, sent) := ExecC(s.sum, t);
      SendC(s.(wait := s.wait.(c := s.wait.c - {t})), d, t, sent)
    case Multiply(x) =>
      s.(flow := f.(jobs := f.jobs - multiset{x}, parts := f.parts + multiset{x}))
    case TakeP(x) =>
      var (d, sent) := ExecP(s.sum, x);
      SendP(s.(flow := f.(parts := f.parts - multiset{x})), d, x, sent)
    case Add(x) =>
      s.(flow := f.(pairs := f.pairs - multiset{x}, summed := f.summed + multiset{x}),
         c := AddBlock(p.mats, s.c, x), past := s.past.(added := s.past.added + {x}))
    case TakePC(x) =>
      var (d, sent) := ExecPC(s.sum, x.Home());
      SendC(s.(flow := f.(summed := f.summed - multiset{x}), past := s.past.(done := s.past.done + {x})),
            d, x.Home(), sent)
  }

  predicate IsRun(p: Problem, s: State, steps: seq<Step>)
    decreases |steps|
  {
    steps == [] || (Enabled(s, steps[0]) && IsRun(p, Next(p, s, steps[0]), steps[1..]))
  }

  function After(p: Problem, s: State, steps: seq<Step>): State
    requires IsRun(p, s, steps)
    decreases |steps|
  {
    if steps == [] then s else After(p, Next(p, s, steps[0]), steps[1..])
  }

  // ----- the invariant ----------------------------------------------------------------------

  predicate Ready(a: set<Place>, b: set<Place>, x: Job) { Place(x.i, x.k) in a && Place(x.k, x.j) in b }

  /** Every tile arrives once, and exactly the jobs with both tiles present were sent, once each. */
  ghost predicate JoinInv(p: Problem, waitA: set<Place>, waitB: set<Place>, a: set<Place>, b: set<Place>,
                          sent: multiset<Job>)
  {
    && (forall t :: t in waitA <==> p.IsA(t) && t !in a)
    && (forall t :: t in a ==> p.IsA(t))
    && (forall t :: t in waitB <==> p.IsB(t) && t !in b)
    && (forall t :: t in b ==> p.IsB(t))
    && (forall x :: sent[x] == if p.IsJob(x) && Ready(a, b, x) then 1 else 0)
  }

  /** In how many places job `x` is. */
  function Count(f: Flow, h: Past, x: Job): nat {
    f.jobs[x] + f.parts[x] + h.queued[x] + f.pairs[x] + f.summed[x] + if x in h.done then 1 else 0
  }

  /** A job once sent is in exactly one place. */
  ghost predicate JobInv(f: Flow, h: Past) {
    forall x :: Count(f, h, x) == h.sent[x]
  }

  ghost predicate QueueInv(p: Problem, queues: map<Place, seq<Job>>, queued: multiset<Job>) {
    && (forall t :: t in queues <==> p.IsC(t))
    && (forall t, x :: t in queues ==>
          multiset(queues[t])[x] == if x.Home() == t then queued[x] else 0)
  }

  /** What the places of the C tiles depend on. */
  datatype Hold = Hold(wait: set<Place>, queues: map<Place, seq<Job>>, slots: set<Place>, pairs: multiset<Job>,
                       summed: multiset<Job>, holder: map<Place, Holder>, results: seq<Place>)

  function HoldOf(s: State): Hold {
    Hold(s.wait.c, s.sum.queues, s.sum.slots, s.flow.pairs, s.flow.summed, s.past.holder, s.results)
  }

  /**
    Every C tile is in one place, and never waits in its slot beside a queued partial sum.
    A C tile that the running handler has in hand is in `hand`.
   */
  ghost predicate HolderInv(p: Problem, h: Hold, hand: set<Place>) {
    && (forall t :: t in h.holder <==> p.IsC(t))
    && (forall t :: t in h.wait <==> t in h.holder && t !in hand && h.holder[t] == Away)
    && (forall t :: t in h.slots <==> t in h.holder && t !in hand && h.holder[t] == Slot)
    && (forall x :: h.pairs[x] + h.summed[x] ==
          if x.Home() in h.holder && x.Home() !in hand && h.holder[x.Home()] == With(x.k) then 1 else 0)
    && (forall t :: t in h.queues && t in h.slots ==> h.queues[t] == [])
    && (forall t :: t in h.holder && t !in hand && h.holder[t] == Out ==> h.results != [])
  }

  ghost predicate CountInv(p: Problem, summed: multiset<Job>, added: set<Job>, done: set<Job>, count: int,
                           results: seq<Place>)
  {
    && (forall x :: x in added <==> x in summed || x in done)
    && Covered(p) && count == p.total - |done|
    && |results| == (if 0 < p.total == |done| then 1 else 0)
  }

  /** What the jobs in `added` contribute to entry (r, c), over the first `n` inner tiles. */
  function Partial(m: Matrices, added: set<Job>, r: nat, c: nat, n: nat): int {
    if n == 0 then 0 else
      Partial(m, added, r, c, n - 1) + if Job(r / m.ts, n - 1, c / m.ts) in added then BlockAt(m, n - 1, r, c) else 0
  }

  /** Every entry of C is its initial value plus the blocks added so far. */
  ghost predicate MatrixInv(p: Problem, c: Entries, added: set<Job>) {
    forall row: nat, col: nat :: row < p.mats.rows && col < p.mats.cols ==>
      c(row, col) == p.mats.c0(row, col) + Partial(p.mats, added, row, col, p.TK)
  }

  ghost predicate Inv(p: Problem, s: State) {
    && JoinInv(p, s.wait.a, s.wait.b, s.a, s.b, s.past.sent)
    && JobInv(s.flow, s.past)
    && QueueInv(p, s.sum.queues, s.past.queued)
    && HolderInv(p, HoldOf(s), {})
    && CountInv(p, s.flow.summed, s.past.added, s.past.done, s.sum.count, s.results)
  }
}
