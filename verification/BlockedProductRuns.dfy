/** What every run of the blocked product keeps, and what it ends with. */
module BlockedProductRuns {

  import opened Common
  import opened Tiles
  import opened BlockedProduct

  // ----- how many jobs there are --------------------------------------------------------

  function JobsOfRow(i: nat, k: nat, n: nat): set<Job> {
    if n == 0 then {} else JobsOfRow(i, k, n - 1) + {Job(i, k, n - 1)}
  }

  function JobsOfPlane(i: nat, m: nat, n: nat): set<Job> {
    if m == 0 then {} else JobsOfPlane(i, m - 1, n) + JobsOfRow(i, m - 1, n)
  }

  function AllJobs(l: nat, m: nat, n: nat): set<Job> {
    if l == 0 then {} else AllJobs(l - 1, m, n) + JobsOfPlane(l - 1, m, n)
  }

  lemma {:induction false} RowSize(i: nat, k: nat, n: nat)
    ensures forall x :: x in JobsOfRow(i, k, n) <==> x.i == i && x.k == k && x.j < n
    ensures |JobsOfRow(i, k, n)| == n
  {
    if n == 0 {
    } else {
      RowSize(i, k, n - 1);
    }
  }

  lemma Unfold(i: nat, l: nat, m: nat, n: nat)
    ensures Times(0, n) == 0 && JobsOfPlane(i, 0, n) == {} && AllJobs(0, m, n) == {}
    ensures m > 0 ==> Times(m, n) == Times(m - 1, n) + n
    ensures m > 0 ==> JobsOfPlane(i, m, n) == JobsOfPlane(i, m - 1, n) + JobsOfRow(i, m - 1, n)
    ensures l > 0 ==> AllJobs(l, m, n) == AllJobs(l - 1, m, n) + JobsOfPlane(l - 1, m, n)
  {
  }

  lemma Reorder(l: nat, m: nat, n: nat)
    ensures Times(l, Times(m, n)) == Times(Times(l, n), m)
  {
    assert m * n == n * m;
    assert l * (n * m) == l * n * m;
  }

  lemma UnionSize(a: set<Job>, b: set<Job>)
    requires a !! b
    ensures |a + b| == |a| + |b|
  {
  }

  lemma {:induction false} PlaneSize(i: nat, m: nat, n: nat)
    ensures forall x :: x in JobsOfPlane(i, m, n) <==> x.i == i && x.k < m && x.j < n
    ensures |JobsOfPlane(i, m, n)| == Times(m, n)
  {
    hide *;
    Unfold(i, 0, m, n);
    if m == 0 {
    } else {
      PlaneSize(i, m - 1, n);
      RowSize(i, m - 1, n);
      UnionSize(JobsOfPlane(i, m - 1, n), JobsOfRow(i, m - 1, n));
    }
  }

  lemma {:induction false} AllSize(l: nat, m: nat, n: nat)
    ensures forall x :: x in AllJobs(l, m, n) <==> x.i < l && x.k < m && x.j < n
    ensures |AllJobs(l, m, n)| == Times(l, Times(m, n))
  {
    hide *;
    Unfold(0, l, m, n);
    Unfold(0, 0, l, Times(m, n));
    if l == 0 {
    } else {
      AllSize(l - 1, m, n);
      PlaneSize(l - 1, m, n);
      UnionSize(AllJobs(l - 1, m, n), JobsOfPlane(l - 1, m, n));
    }
  }

  /** The counter of the sum state starts at the number of partial products. */
  lemma TotalIsNumberOfJobs(p: Problem)
    requires Fits(p)
    ensures Counted(p)
  {
    AllSize(p.TM, p.TK, p.TN);
    Reorder(p.TM, p.TK, p.TN);
    SameJobSets(p);
    hide Times;
  }

  lemma SameJobSets(p: Problem)
    ensures p.Jobs() == AllJobs(p.TM, p.TK, p.TN)
  {
    AllSize(p.TM, p.TK, p.TN);
    hide AllJobs, Times;
  }

  // ----- the initial state ----------------------------------------------------------------

  lemma {:induction false} NothingAdded(m: Matrices, r: nat, c: nat, n: nat)
    ensures Partial(m, {}, r, c, n) == 0
  {
    if n == 0 {
    } else {
      NothingAdded(m, r, c, n - 1);
    }
  }

  lemma StartInv(p: Problem)
    requires Covered(p)
    ensures Inv(p, Start(p))
  {
    hide Problem.Jobs;
  }

  lemma StartMatrix(p: Problem)
    ensures MatrixInv(p, Start(p).c, Start(p).past.added)
  {
    forall row: nat, col: nat | row < p.mats.rows && col < p.mats.cols
      ensures Start(p).c(row, col) == p.mats.c0(row, col) + Partial(p.mats, {}, row, col, p.TK)
    {
      NothingAdded(p.mats, row, col, p.TK);
    }
    hide Partial;
  }

  // ----- arrivals at the product state -------------------------------------------------------

  lemma ArriveAKeepsJoin(p: Problem, waitA: set<Place>, waitB: set<Place>, a: set<Place>, b: set<Place>,
                          sent: multiset<Job>, t: Place)
    requires JoinInv(p, waitA, waitB, a, b, sent) && t in waitA
    ensures JoinInv(p, waitA - {t}, waitB, a + {t}, b, sent + multiset(AJobs(b, t, p.TN)))
  {
    forall x {
      AJobsHas(b, t, p.TN, x);
    }
    hide AJobs;
  }

  lemma ArriveBKeepsJoin(p: Problem, waitA: set<Place>, waitB: set<Place>, a: set<Place>, b: set<Place>,
                          sent: multiset<Job>, t: Place)
    requires JoinInv(p, waitA, waitB, a, b, sent) && t in waitB
    ensures JoinInv(p, waitA, waitB - {t}, a, b + {t}, sent + multiset(BJobs(a, t, p.TM)))
  {
    forall x {
      BJobsHas(a, t, p.TM, x);
    }
    hide BJobs;
  }

  lemma ArriveKeeps(p: Problem, s: State, st: Step)
    requires Inv(p, s) && Enabled(s, st) && (st.ArriveA? || st.ArriveB?)
    ensures Inv(p, Next(p, s, st))
    ensures st.t !in if st.ArriveA? then s.a else s.b
  {
    hide QueueInv, HolderInv, CountInv, AJobs, BJobs;
    if st.ArriveA? {
      ArriveAKeepsJoin(p, s.wait.a, s.wait.b, s.a, s.b, s.past.sent, st.t);
    } else {
      ArriveBKeepsJoin(p, s.wait.a, s.wait.b, s.a, s.b, s.past.sent, st.t);
    }
  }

  lemma MultiplyKeeps(p: Problem, s: State, x: Job)
    requires Inv(p, s) && Enabled(s, Multiply(x))
    ensures Inv(p, Next(p, s, Multiply(x)))
  {
    hide JoinInv, QueueInv, HolderInv, CountInv;
  }

  // ----- the sum task -----------------------------------------------------------------------

  /** Adding job `x` changes an entry by its block when the entry is in the tile of `x`. */
  lemma {:induction false} PartialAdds(m: Matrices, added: set<Job>, x: Job, r: nat, c: nat, n: nat)
    requires x !in added
    ensures Partial(m, added + {x}, r, c, n) == Partial(m, added, r, c, n)
      + if x.k < n && x.i == r / m.ts && x.j == c / m.ts then BlockAt(m, x.k, r, c) else 0
  {
    hide BlockAt;
    if n == 0 {
    } else {
      PartialAdds(m, added, x, r, c, n - 1);
    }
  }

  /** An entry of C is in the tile given by division. */
  lemma InTileIsDivision(m: Matrices, x: Job, r: nat, c: nat)
    requires r < m.rows && c < m.cols && x.i < TileCount(m.rows, m.ts) && x.j < TileCount(m.cols, m.ts)
    ensures InTile(m, x, r, c) <==> x.i == r / m.ts && x.j == c / m.ts
  {
    TilesPartition(m.rows, m.cols, m.ts, r, c, x.i, x.j);
    hide TileAt, Covers;
  }

  lemma AddKeepsMatrix(p: Problem, c: Entries, added: set<Job>, x: Job)
    requires Cut(p) && MatrixInv(p, c, added) && p.IsJob(x) && x !in added
    ensures MatrixInv(p, AddBlock(p.mats, c, x), added + {x})
  {
    hide Partial, BlockAt, InTile;
    forall row: nat, col: nat | row < p.mats.rows && col < p.mats.cols
      ensures AddBlock(p.mats, c, x)(row, col) == p.mats.c0(row, col) + Partial(p.mats, added + {x}, row, col, p.TK)
    {
      InTileIsDivision(p.mats, x, row, col);
      PartialAdds(p.mats, added, x, row, col, p.TK);
    }
  }

  lemma PairIsNew(p: Problem, s: State, x: Job)
    requires Inv(p, s) && x in s.flow.pairs
    ensures p.IsJob(x) && x !in s.past.added
  {
    hide QueueInv, HolderInv;
    assert Count(s.flow, s.past, x) <= 1;
  }

  lemma AddKeeps(p: Problem, s: State, x: Job)
    requires Inv(p, s) && Enabled(s, Add(x))
    ensures Inv(p, Next(p, s, Add(x)))
  {
    hide JoinInv, QueueInv, AddBlock, Times;
    PairIsNew(p, s, x);
  }

  // ----- a partial sum arrives at the sum state ------------------------------------------------

  lemma PushKeepsQueues(p: Problem, queues: map<Place, seq<Job>>, queued: multiset<Job>, x: Job)
    requires QueueInv(p, queues, queued) && x.Home() in queues
    ensures QueueInv(p, queues[x.Home() := queues[x.Home()] + [x]], queued + multiset{x})
  {
  }

  lemma PopKeepsQueues(p: Problem, queues: map<Place, seq<Job>>, queued: multiset<Job>, c: Place)
    requires QueueInv(p, queues, queued) && c in queues && queues[c] != []
    ensures var q := queues[c]; var x := q[|q| - 1];
      x in queued && x.Home() == c && QueueInv(p, queues[c := q[..|q| - 1]], queued - multiset{x})
  {
    var q := queues[c];
    var x := q[|q| - 1];
    assert q == q[..|q| - 1] + [x];
    assert multiset(q) == multiset(q[..|q| - 1]) + multiset{x};
    assert multiset(q)[x] > 0;
  }

  lemma PushKeepsHold(p: Problem, h: Hold, x: Job)
    requires HolderInv(p, h, {}) && x.Home() in h.queues && x.Home() !in h.slots
    ensures HolderInv(p, h.(queues := h.queues[x.Home() := h.queues[x.Home()] + [x]]), {})
  {
  }

  lemma TakeSlotKeepsHold(p: Problem, h: Hold, x: Job)
    requires HolderInv(p, h, {}) && x.Home() in h.slots
    ensures HolderInv(p, h.(slots := h.slots - {x.Home()}, pairs := h.pairs + multiset{x},
                            holder := h.holder[x.Home() := With(x.k)]), {})
  {
  }

  lemma TakePKeepsJobs(p: Problem, s: State, x: Job)
    requires JobInv(s.flow, s.past) && Enabled(s, TakeP(x))
    ensures JobInv(Next(p, s, TakeP(x)).flow, Next(p, s, TakeP(x)).past)
  {
    hide AddBlock;
  }

  lemma TakePKeeps(p: Problem, s: State, x: Job)
    requires Inv(p, s) && Enabled(s, TakeP(x))
    ensures Inv(p, Next(p, s, TakeP(x)))
  {
    hide JoinInv, JobInv, QueueInv, HolderInv, CountInv, AddBlock;
    TakePKeepsJobs(p, s, x);
    if x.Home() in s.sum.slots {
      TakeSlotKeepsHold(p, HoldOf(s), x);
    } else {
      PushKeepsQueues(p, s.sum.queues, s.past.queued, x);
      PushKeepsHold(p, HoldOf(s), x);
    }
  }

  // ----- a C tile in hand ------------------------------------------------------------------------

  lemma GiveKeepsHold(p: Problem, h: Hold, x: Job, q: seq<Job>)
    requires HolderInv(p, h, {x.Home()}) && p.IsC(x.Home())
    ensures HolderInv(p, h.(queues := h.queues[x.Home() := q], pairs := h.pairs + multiset{x},
                            holder := h.holder[x.Home() := With(x.k)]), {})
  {
  }

  lemma PutKeepsHold(p: Problem, h: Hold, c: Place)
    requires HolderInv(p, h, {c}) && p.IsC(c) && c in h.queues && h.queues[c] == []
    ensures HolderInv(p, h.(slots := h.slots + {c}, holder := h.holder[c := Slot]), {})
  {
  }

  lemma ResultKeepsHold(p: Problem, h: Hold, c: Place)
    requires HolderInv(p, h, {c}) && p.IsC(c)
    ensures HolderInv(p, h.(results := h.results + [c], holder := h.holder[c := Out]), {})
  {
  }

  lemma ExecCKeeps(p: Problem, s: State, c: Place)
    requires p.IsC(c) && c in s.sum.queues
    requires JobInv(s.flow, s.past) && QueueInv(p, s.sum.queues, s.past.queued) && HolderInv(p, HoldOf(s), {c})
    ensures var (d, sent) := ExecC(s.sum, c); var s' := SendC(s, d, c, sent);
      && JobInv(s'.flow, s'.past) && QueueInv(p, s'.sum.queues, s'.past.queued) && HolderInv(p, HoldOf(s'), {})
  {
    hide QueueInv, HolderInv, Problem.IsC;
    var q := s.sum.queues[c];
    if q != [] {
      PopKeepsQueues(p, s.sum.queues, s.past.queued, c);
      GiveKeepsHold(p, HoldOf(s), q[|q| - 1], q[..|q| - 1]);
    } else {
      PutKeepsHold(p, HoldOf(s), c);
    }
  }

  lemma TakesInHand(p: Problem, s: State, t: Place)
    requires Inv(p, s) && t in s.wait.c
    ensures p.IsC(t) && t in s.sum.queues
    ensures HolderInv(p, HoldOf(s).(wait := s.wait.c - {t}), {t})
  {
    hide JoinInv, JobInv, CountInv;
  }

  lemma ArriveCKeeps(p: Problem, s: State, t: Place)
    requires Inv(p, s) && Enabled(s, ArriveC(t))
    ensures Inv(p, Next(p, s, ArriveC(t)))
  {
    hide JoinInv, JobInv, QueueInv, HolderInv, CountInv, AddBlock;
    TakesInHand(p, s, t);
    ExecCKeeps(p, s.(wait := s.wait.(c := s.wait.c - {t})), t);
  }

  // ----- a sum comes back --------------------------------------------------------------------

  lemma SumTakenKeepsHold(p: Problem, h: Hold, x: Job)
    requires HolderInv(p, h, {}) && x in h.summed
    ensures p.IsC(x.Home()) && HolderInv(p, h.(summed := h.summed - multiset{x}), {x.Home()})
  {
  }

  lemma SumComesBack(p: Problem, s: State, x: Job)
    requires Inv(p, s) && x in s.flow.summed
    ensures p.IsJob(x) && p.IsC(x.Home()) && x.Home() in s.sum.queues && x !in s.past.done
    ensures HolderInv(p, HoldOf(s).(summed := s.flow.summed - multiset{x}), {x.Home()})
    ensures JobInv(s.flow.(summed := s.flow.summed - multiset{x}), s.past.(done := s.past.done + {x}))
  {
    hide CountInv, HolderInv;
    SumTakenKeepsHold(p, HoldOf(s), x);
    assert Count(s.flow, s.past, x) <= 1;
  }

  lemma OneMoreDone(p: Problem, summed: multiset<Job>, added: set<Job>, done: set<Job>, count: int,
                    results: seq<Place>, x: Job)
    requires CountInv(p, summed, added, done, count, results) && summed[x] == 1 && x !in done
    requires |done + {x}| <= p.total
    ensures count > 0
    ensures CountInv(p, summed - multiset{x}, added, done + {x}, count - 1,
                     if count == 1 then results + [x.Home()] else results)
  {
    hide Problem.Jobs;
  }

  /** The counter reaches zero exactly when the last job is done. */
  lemma TakePCKeepsCount(p: Problem, s: State, x: Job)
    requires Inv(p, s) && x in s.flow.summed && p.IsJob(x) && x !in s.past.done
    ensures s.sum.count > 0
    ensures CountInv(p, s.flow.summed - multiset{x}, s.past.added, s.past.done + {x}, s.sum.count - 1,
                     if s.sum.count == 1 then s.results + [x.Home()] else s.results)
  {
    hide *;
    SumsAreDistinct(p, s, x);
    DoneAreJobs(p, s);
    CountOf(p, s);
    SubsetSize(s.past.done + {x}, p.Jobs());
    OneMoreDone(p, s.flow.summed, s.past.added, s.past.done, s.sum.count, s.results, x);
  }

  lemma SumsAreDistinct(p: Problem, s: State, x: Job)
    requires Inv(p, s) && x in s.flow.summed
    ensures s.flow.summed[x] == 1
    ensures CountInv(p, s.flow.summed, s.past.added, s.past.done, s.sum.count, s.results)
  {
    hide QueueInv, HolderInv, CountInv;
    assert Count(s.flow, s.past, x) <= 1;
  }

  lemma CountOf(p: Problem, s: State)
    requires Inv(p, s)
    ensures p.total >= |p.Jobs()| && forall x :: x in p.Jobs() <==> p.IsJob(x)
  {
    hide JoinInv, JobInv, QueueInv, HolderInv;
  }

  lemma DoneAreJobs(p: Problem, s: State)
    requires Inv(p, s)
    ensures s.past.done <= p.Jobs()
  {
    forall x | x in s.past.done ensures p.IsJob(x) {
      DoneIsJob(p, s, x);
    }
    hide *;
  }

  lemma DoneIsJob(p: Problem, s: State, x: Job)
    requires Inv(p, s) && x in s.past.done
    ensures p.IsJob(x)
  {
    hide QueueInv, HolderInv, CountInv;
    assert Count(s.flow, s.past, x) >= 1;
  }

  lemma SameJobs(f: Flow, h: Past, h': Past)
    requires JobInv(f, h) && h' == h.(holder := h'.holder)
    ensures JobInv(f, h')
  {
  }

  lemma TakePCKeeps(p: Problem, s: State, x: Job)
    requires Inv(p, s) && Enabled(s, TakePC(x))
    ensures Inv(p, Next(p, s, TakePC(x)))
  {
    hide JoinInv, JobInv, QueueInv, HolderInv, CountInv, AddBlock, Problem.IsC, Problem.IsJob;
    SumComesBack(p, s, x);
    TakePCKeepsCount(p, s, x);
    var s1 := s.(flow := s.flow.(summed := s.flow.summed - multiset{x}),
                 past := s.past.(done := s.past.done + {x}), sum := s.sum.(count := s.sum.count - 1));
    if s1.sum.count == 0 {
      ResultKeepsHold(p, HoldOf(s1), x.Home());
      SameJobs(s1.flow, s1.past, s1.past.(holder := s1.past.holder[x.Home() := Out]));
    } else {
      ExecCKeeps(p, s1, x.Home());
    }
  }

  /** Every handler call keeps the invariant. */
  lemma NextKeepsInv(p: Problem, s: State, st: Step)
    requires Inv(p, s) && Enabled(s, st)
    ensures Inv(p, Next(p, s, st))
  {
    hide Inv, Next, Enabled;
    match st
    case ArriveA(t) => ArriveKeeps(p, s, st);
    case ArriveB(t) => ArriveKeeps(p, s, st);
    case ArriveC(t) => ArriveCKeeps(p, s, t);
    case Multiply(x) => MultiplyKeeps(p, s, x);
    case TakeP(x) => TakePKeeps(p, s, x);
    case Add(x) => AddKeeps(p, s, x);
    case TakePC(x) => TakePCKeeps(p, s, x);
  }

  lemma {:induction false} RunKeepsInv(p: Problem, s: State, steps: seq<Step>)
    requires Inv(p, s) && IsRun(p, s, steps)
    ensures Inv(p, After(p, s, steps))
    decreases |steps|
  {
    hide Inv, Next, Enabled;
    if steps == [] {
    } else {
      NextKeepsInv(p, s, steps[0]);
      RunKeepsInv(p, Next(p, s, steps[0]), steps[1..]);
    }
  }

  // ----- what runs end with --------------------------------------------------------------------

  /** Product join: the jobs sent are at every moment those whose two tiles have arrived, each once. */
  lemma JoinIsExact(p: Problem, steps: seq<Step>, x: Job)
    requires Covered(p) && IsRun(p, Start(p), steps)
    ensures var s := After(p, Start(p), steps);
      s.past.sent[x] == if p.IsJob(x) && Ready(s.a, s.b, x) then 1 else 0
  {
    StartInv(p);
    RunKeepsInv(p, Start(p), steps);
    hide JobInv, QueueInv, HolderInv, CountInv, Start, After, Next;
  }

  // ----- the matrix ----------------------------------------------------------------------------

  lemma NextKeepsMatrix(p: Problem, s: State, st: Step)
    requires Cut(p) && Inv(p, s) && MatrixInv(p, s.c, s.past.added) && Enabled(s, st)
    ensures MatrixInv(p, Next(p, s, st).c, Next(p, s, st).past.added)
  {
    hide Cut, JoinInv, JobInv, QueueInv, HolderInv, CountInv, MatrixInv, AddBlock;
    if st.Add? {
      PairIsNew(p, s, st.x);
      AddKeepsMatrix(p, s.c, s.past.added, st.x);
    }
  }

  lemma {:induction false} RunKeepsMatrix(p: Problem, s: State, steps: seq<Step>)
    requires Cut(p) && Inv(p, s) && MatrixInv(p, s.c, s.past.added) && IsRun(p, s, steps)
    ensures MatrixInv(p, After(p, s, steps).c, After(p, s, steps).past.added)
    decreases |steps|
  {
    hide Cut, Inv, Next, Enabled, MatrixInv;
    if steps == [] {
    } else {
      NextKeepsInv(p, s, steps[0]);
      NextKeepsMatrix(p, s, steps[0]);
      RunKeepsMatrix(p, Next(p, s, steps[0]), steps[1..]);
    }
  }

  /** The sum tasks under way work on different C tiles, so on different entries of C. */
  lemma SumsDoNotOverlap(p: Problem, s: State, x: Job, y: Job, r: nat, c: nat)
    requires Inv(p, s) && x in s.flow.pairs && y in s.flow.pairs && r < p.mats.rows && c < p.mats.cols
    ensures s.flow.pairs[x] == 1 && p.IsJob(x)
    ensures InTile(p.mats, x, r, c) && InTile(p.mats, y, r, c) ==> x == y
  {
    PairIsNew(p, s, x);
    if InTile(p.mats, x, r, c) && InTile(p.mats, y, r, c) {
      InTileIsDivision(p.mats, x, r, c);
      InTileIsDivision(p.mats, y, r, c);
      assert x.Home() == y.Home();
    }
    hide InTile, JoinInv, JobInv, QueueInv, CountInv;
  }

  ghost predicate HasProduct(m: Matrices, c: Entries) {
    forall row: nat, col: nat :: row < m.rows && col < m.cols ==>
      c(row, col) == m.c0(row, col) + Dot(m.a, m.b, row, col, 0, m.inner)
  }

  lemma {:induction false} AllAdded(p: Problem, added: set<Job>, r: nat, c: nat, n: nat)
    requires Cut(p) && n <= p.TK && r < p.mats.rows && c < p.mats.cols
    requires forall x :: p.IsJob(x) ==> x in added
    ensures var m := p.mats; Partial(m, added, r, c, n) == Blocks(m.a, m.b, m.inner, m.ts, r, c, n)
  {
    hide TileCount, Block;
    var m := p.mats;
    if n == 0 {
    } else {
      AllAdded(p, added, r, c, n - 1);
      IndexInOneTile(m.rows, m.ts, r, 0);
      IndexInOneTile(m.cols, m.ts, c, 0);
      assert p.IsJob(Job(r / m.ts, n - 1, c / m.ts));
    }
  }

  /** Once every job was added, C is its initial value plus A * B. */
  lemma AddedMeansProduct(p: Problem, c: Entries, added: set<Job>)
    requires Cut(p) && MatrixInv(p, c, added) && forall x :: p.IsJob(x) ==> x in added
    ensures HasProduct(p.mats, c)
  {
    hide TileCount, Block, Dot, Partial, Blocks, Times;
    var m := p.mats;
    forall row: nat, col: nat | row < m.rows && col < m.cols
      ensures c(row, col) == m.c0(row, col) + Dot(m.a, m.b, row, col, 0, m.inner)
    {
      AllAdded(p, added, row, col, p.TK);
      AllBlocks(m.a, m.b, m.inner, m.ts, row, col);
    }
  }

  lemma FullCount(p: Problem, s: State)
    requires Inv(p, s) && |s.past.done| == p.total
    ensures p.total == |p.Jobs()| && forall x :: p.IsJob(x) ==> x in s.past.done
  {
    hide *;
    DoneAreJobs(p, s);
    CountOf(p, s);
    SubsetSize(s.past.done, p.Jobs());
  }

  ghost predicate AllDone(p: Problem, s: State) {
    forall x :: p.IsJob(x) ==> x in s.past.done && x in s.past.added
  }

  lemma ResultMeansDone(p: Problem, s: State)
    requires Inv(p, s)
    ensures |s.results| <= 1 && (s.results != [] ==> AllDone(p, s))
  {
    hide JoinInv, JobInv, QueueInv, HolderInv, Problem.IsJob, Problem.Jobs;
    if s.results != [] {
      FullCount(p, s);
    }
  }

  /** In every run a result is sent at most once, and only after every partial product was added. */
  lemma ResultComesLast(p: Problem, steps: seq<Step>)
    requires Covered(p) && IsRun(p, Start(p), steps)
    ensures var s := After(p, Start(p), steps); |s.results| <= 1 && (s.results != [] ==> AllDone(p, s))
  {
    hide *;
    StartInv(p);
    RunKeepsInv(p, Start(p), steps);
    ResultMeansDone(p, After(p, Start(p), steps));
  }

  /** Whatever the order of arrivals and completions: when a result was sent, C is its initial value plus A * B. */
  lemma ResultIsTheProduct(p: Problem, steps: seq<Step>)
    requires Fits(p) && IsRun(p, Start(p), steps) && After(p, Start(p), steps).results != []
    ensures HasProduct(p.mats, After(p, Start(p), steps).c)
  {
    hide Cut, Problem.Jobs, IsRun, Start, After, Inv, MatrixInv, HasProduct, Problem.IsJob, Times;
    TotalIsNumberOfJobs(p);
    StartInv(p);
    StartMatrix(p);
    RunKeepsMatrix(p, Start(p), steps);
    ResultComesLast(p, steps);
    AddedMeansProduct(p, After(p, Start(p), steps).c, After(p, Start(p), steps).past.added);
  }

  // ----- every run ends, and ends well -----------------------------------------------------------

  /** Nothing is left to deliver or to compute. */
  predicate Quiet(s: State) {
    && s.wait == Arrivals({}, {}, {})
    && s.flow == Flow(multiset{}, multiset{}, multiset{}, multiset{})
  }

  lemma NotQuietCanMove(p: Problem, s: State)
    requires Inv(p, s) && !Quiet(s)
    ensures exists st :: Enabled(s, st)
  {
    if t :| t in s.wait.a {
      assert Enabled(s, ArriveA(t));
    } else if t :| t in s.wait.b {
      assert Enabled(s, ArriveB(t));
    } else if t :| t in s.wait.c {
      TakesInHand(p, s, t);
      assert Enabled(s, ArriveC(t));
    } else if x :| x in s.flow.jobs {
      assert Enabled(s, Multiply(x));
    } else if x :| x in s.flow.parts {
      PartHasHome(p, s, x);
      assert Enabled(s, TakeP(x));
    } else if x :| x in s.flow.pairs {
      assert Enabled(s, Add(x));
    } else {
      var x :| x in s.flow.summed;
      SumComesBack(p, s, x);
      assert Enabled(s, TakePC(x));
    }
  }

  lemma PartHasHome(p: Problem, s: State, x: Job)
    requires Inv(p, s) && x in s.flow.parts
    ensures x.Home() in s.sum.queues
  {
    hide HolderInv, CountInv;
    assert Count(s.flow, s.past, x) <= 1;
  }

  lemma AllArrived(p: Problem, s: State, x: Job)
    requires Inv(p, s) && Quiet(s) && p.IsJob(x)
    ensures (if x in s.past.done then 1 else 0) + s.past.queued[x] == 1
  {
    hide QueueInv, HolderInv, CountInv;
    assert p.IsA(Place(x.i, x.k)) && p.IsB(Place(x.k, x.j));
    assert Count(s.flow, s.past, x) == 1;
  }

  /** When no C tile is under way and none was sent as the result, every C tile is in its slot. */
  lemma QueuesAreEmpty(p: Problem, h: Hold, t: Place)
    requires HolderInv(p, h, {}) && p.IsC(t) && t in h.queues
    requires h.wait == {} && h.pairs == multiset{} && h.summed == multiset{} && h.results == []
    ensures h.queues[t] == []
  {
    var x := Job(t.row, if h.holder[t].With? then h.holder[t].k else 0, t.col);
    assert x.Home() == t && h.pairs[x] + h.summed[x] == 0;
  }

  /** When nothing moves, no partial sum is stranded in a queue. */
  lemma QuietIsDone(p: Problem, s: State, x: Job)
    requires Inv(p, s) && Quiet(s) && p.IsJob(x) && s.results == []
    ensures x in s.past.done
  {
    hide JoinInv, JobInv, HolderInv, CountInv;
    AllArrived(p, s, x);
    QueuesAreEmpty(p, HoldOf(s), x.Home());
    assert multiset(s.sum.queues[x.Home()])[x] == 0;
  }

  /**
    A run that cannot go on has done every job, and has sent its result exactly when there was
    anything to multiply: with no tile along some dimension the counter starts at zero, never
    reaches it again, and no result is ever sent.
   */
  lemma CompleteRunsSendTheResult(p: Problem, steps: seq<Step>)
    requires Counted(p) && IsRun(p, Start(p), steps)
    requires forall st :: !Enabled(After(p, Start(p), steps), st)
    ensures var s := After(p, Start(p), steps); AllDone(p, s) && (|s.results| == 1 <==> p.total > 0)
  {
    hide Problem.Jobs, Start, After, Next, Enabled, Inv, AllDone, IsRun;
    StartInv(p);
    RunKeepsInv(p, Start(p), steps);
    var s := After(p, Start(p), steps);
    if !Quiet(s) {
      NotQuietCanMove(p, s);
    }
    QuietSendsTheResult(p, s);
  }

  /** Such a run has computed C + A * B. */
  lemma CompleteRunsComputeTheProduct(p: Problem, steps: seq<Step>)
    requires Fits(p) && IsRun(p, Start(p), steps)
    requires forall st :: !Enabled(After(p, Start(p), steps), st)
    ensures HasProduct(p.mats, After(p, Start(p), steps).c)
  {
    hide Cut, Problem.Jobs, IsRun, Start, After, Enabled, Inv, MatrixInv, HasProduct, Problem.IsJob, Times;
    TotalIsNumberOfJobs(p);
    StartInv(p);
    StartMatrix(p);
    RunKeepsMatrix(p, Start(p), steps);
    CompleteRunsSendTheResult(p, steps);
    AddedMeansProduct(p, After(p, Start(p), steps).c, After(p, Start(p), steps).past.added);
  }

  lemma QuietSendsTheResult(p: Problem, s: State)
    requires Inv(p, s) && Quiet(s)
    ensures AllDone(p, s) && (|s.results| == 1 <==> 0 < p.total == |p.Jobs()|)
  {
    hide JoinInv, JobInv, QueueInv, HolderInv, Problem.IsJob, Problem.Jobs, Quiet;
    if s.results == [] {
      forall x | p.IsJob(x) ensures x in s.past.done {
        QuietIsDone(p, s, x);
      }
      DoneIsAll(p, s);
    } else {
      FullCount(p, s);
    }
  }

  lemma DoneIsAll(p: Problem, s: State)
    requires Inv(p, s) && forall x :: p.IsJob(x) ==> x in s.past.done
    ensures |s.past.done| == |p.Jobs()|
  {
    hide *;
    DoneAreJobs(p, s);
    CountOf(p, s);
    assert s.past.done == p.Jobs();
  }

  /** The number of handler calls still to come. */
  function Left(p: Problem, s: State): int {
    |s.wait.a| + |s.wait.b| + |s.wait.c| + 4 * (p.total - |s.past.sent|)
    + 4 * |s.flow.jobs| + 3 * |s.flow.parts| + 2 * |s.past.queued| + 2 * |s.flow.pairs| + |s.flow.summed|
  }

  lemma ArrivalsCount(p: Problem, s: State, st: Step)
    requires Enabled(s, st) && (st.ArriveA? || st.ArriveB?)
    ensures Left(p, Next(p, s, st)) == Left(p, s) - 1
  {
    hide AJobs, BJobs, AddBlock;
  }

  lemma TakePCounts(p: Problem, s: State, x: Job)
    requires Enabled(s, TakeP(x))
    ensures Left(p, Next(p, s, TakeP(x))) == Left(p, s) - 1
  {
    OneOut(s.flow.parts, x);
    OneIn(s.flow.pairs, x);
    OneIn(s.past.queued, x);
    TakePMoves(p, s, x);
    hide Next, Enabled;
  }

  lemma TakePMoves(p: Problem, s: State, x: Job)
    requires Enabled(s, TakeP(x))
    ensures var s' := Next(p, s, TakeP(x));
      && s'.wait == s.wait && s'.past.sent == s.past.sent
      && s'.flow.jobs == s.flow.jobs && s'.flow.summed == s.flow.summed
      && s'.flow.parts == s.flow.parts - multiset{x}
      && if x.Home() in s.sum.slots then s'.flow.pairs == s.flow.pairs + multiset{x} && s'.past.queued == s.past.queued
         else s'.flow.pairs == s.flow.pairs && s'.past.queued == s.past.queued + multiset{x}
  {
  }

  lemma OneOut(b: multiset<Job>, x: Job)
    requires x in b
    ensures |b - multiset{x}| == |b| - 1
  {
  }

  lemma OneIn(b: multiset<Job>, x: Job)
    ensures |b + multiset{x}| == |b| + 1
  {
  }

  lemma TasksCount(p: Problem, s: State, st: Step)
    requires Enabled(s, st) && (st.Multiply? || st.Add?)
    ensures Left(p, Next(p, s, st)) == Left(p, s) - 1
  {
    hide AddBlock;
  }

  lemma SendCCount(p: Problem, s: State, c: Place)
    requires QueueInv(p, s.sum.queues, s.past.queued) && c in s.sum.queues
    ensures var (d, sent) := ExecC(s.sum, c); Left(p, SendC(s, d, c, sent)) == Left(p, s)
  {
    hide QueueInv;
    if s.sum.queues[c] != [] {
      PopKeepsQueues(p, s.sum.queues, s.past.queued, c);
    }
  }

  lemma ArriveCCounts(p: Problem, s: State, t: Place)
    requires QueueInv(p, s.sum.queues, s.past.queued) && Enabled(s, ArriveC(t))
    ensures Left(p, Next(p, s, ArriveC(t))) == Left(p, s) - 1
  {
    hide QueueInv, AddBlock, ExecC, SendC;
    SendCCount(p, s.(wait := s.wait.(c := s.wait.c - {t})), t);
  }

  lemma SumTakenCounts(p: Problem, s: State, s1: State, x: Job)
    requires x in s.flow.summed
    requires s1 == s.(flow := s.flow.(summed := s.flow.summed - multiset{x}), past := s.past.(done := s1.past.done),
                      sum := s.sum.(count := s1.sum.count))
    ensures Left(p, s1) == Left(p, s) - 1
    ensures Left(p, SendC(s1, s1.sum, x.Home(), Result(x.Home()))) == Left(p, s) - 1
  {
    hide Problem.Jobs;
  }

  lemma TakePCCounts(p: Problem, s: State, x: Job)
    requires QueueInv(p, s.sum.queues, s.past.queued) && Enabled(s, TakePC(x))
    ensures Left(p, Next(p, s, TakePC(x))) == Left(p, s) - 1
  {
    hide QueueInv, AddBlock, ExecC, Left;
    var s1 := s.(flow := s.flow.(summed := s.flow.summed - multiset{x}),
                 past := s.past.(done := s.past.done + {x}), sum := s.sum.(count := s.sum.count - 1));
    SumTakenCounts(p, s, s1, x);
    SendCCount(p, s1, x.Home());
  }

  /** Every handler call brings the end one call nearer. */
  lemma StepsCount(p: Problem, s: State, st: Step)
    requires Inv(p, s) && Enabled(s, st)
    ensures Left(p, Next(p, s, st)) == Left(p, s) - 1
  {
    hide JoinInv, JobInv, QueueInv, HolderInv, CountInv, Left, Next, Enabled;
    match st
    case ArriveA(t) => ArrivalsCount(p, s, st);
    case ArriveB(t) => ArrivalsCount(p, s, st);
    case ArriveC(t) => ArriveCCounts(p, s, t);
    case Multiply(x) => TasksCount(p, s, st);
    case TakeP(x) => TakePCounts(p, s, x);
    case Add(x) => TasksCount(p, s, st);
    case TakePC(x) => TakePCCounts(p, s, x);
  }

  lemma SubmultisetSize(a: multiset<Job>, b: multiset<Job>)
    requires a <= b
    ensures |a| <= |b|
  {
    assert b == a + (b - a);
  }

  lemma SentAtMostTotal(p: Problem, s: State)
    requires Inv(p, s)
    ensures |s.past.sent| <= p.total
  {
    hide JobInv, QueueInv, HolderInv, CountInv, AllJobs;
    CountOf(p, s);
    assert s.past.sent <= multiset(p.Jobs());
    SubmultisetSize(s.past.sent, multiset(p.Jobs()));
  }

  lemma LeftIsNotNegative(p: Problem, s: State)
    requires Inv(p, s)
    ensures Left(p, s) >= 0
  {
    hide Inv;
    SentAtMostTotal(p, s);
  }

  /** Every run ends: its length plus the calls still to come is fixed by the problem. */
  lemma {:induction false} RunsEnd(p: Problem, s: State, steps: seq<Step>)
    requires Inv(p, s) && IsRun(p, s, steps)
    ensures |steps| + Left(p, After(p, s, steps)) == Left(p, s)
    ensures |steps| <= Left(p, s)
    decreases |steps|
  {
    hide Inv, Next, Enabled, Left;
    if steps != [] {
      StepsCount(p, s, steps[0]);
      NextKeepsInv(p, s, steps[0]);
      RunsEnd(p, Next(p, s, steps[0]), steps[1..]);
    } else {
      LeftIsNotNegative(p, s);
    }
  }

  /** Every run of the product is finite, and how long it can still go on is known at every moment. */
  lemma EveryRunEnds(p: Problem, steps: seq<Step>)
    requires Covered(p) && IsRun(p, Start(p), steps)
    ensures |steps| + Left(p, After(p, Start(p), steps)) == Left(p, Start(p))
    ensures |steps| <= Left(p, Start(p))
  {
    hide *;
    StartInv(p);
    RunsEnd(p, Start(p), steps);
  }
}
