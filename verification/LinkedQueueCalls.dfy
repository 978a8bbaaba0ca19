/**
  The calls of the linked queue from their start to their answer: what each answer means, that a
  call takes effect exactly once, and that a call left alone comes to an end, wherever the others
  have stopped.
 */
module LinkedQueueCalls {
  import opened Common
  import opened LinkedQueue

  /** In a `push`, before its node is linked; `v` is its value. */
  predicate Putting<T>(pc: Pc<T>) { pc.PushAlloc? || Making(pc) }

  /** In a `pop`, before it has taken anything. */
  ghost predicate Seeking<T>(pc: Pc<T>) {
    Loading(pc) || pc.PopCheck? || pc.PopHelp? || pc.PopReadData? || pc.PopCas?
  }

  predicate Ended<T>(pc: Pc<T>) { pc.PushEnd? || pc.PopEnd? }

  /**
    A step of a call on its way: a `push` goes on with its value until the step that appends it; a
    `pop` goes on until the step that takes the first value, which it then answers with, or until
    it answers false, having seen the queue empty since its call.
   */
  ghost predicate Answers<T>(s: State<T>, s': State<T>, p: Tid) {
    var pc, pc' := PcOf(s, p), PcOf(s', p);
    && (Putting(pc) ==>
          if Putting(pc') then pc'.v == pc.v && Abs(s') == Abs(s)
          else pc'.PushSwing? && Abs(s') == Abs(s) + [pc.v])
    && (pc.PushSwing? ==> (pc' == pc || pc'.PushEnd?) && Abs(s') == Abs(s))
    && (Seeking(pc) ==>
          if Seeking(pc') then pc'.since == pc.since && Abs(s') == Abs(s)
          else if Freeing(pc') then Abs(s) == [pc'.r] + Abs(s')
          else pc' == PopEnd(None) && Abs(s') == Abs(s) && exists j: nat :: pc.since <= j < |s.past| && s.past[j] == [])
    && (Freeing(pc) ==>
          Abs(s') == Abs(s) && if Freeing(pc') then pc'.r == pc.r else pc' == PopEnd(Some(pc.r)))
    && (Ended(pc) ==> (pc' == pc || pc'.Idle?) && Abs(s') == Abs(s))
    && (pc.Idle? ==> (pc'.Idle? || pc'.PushAlloc? || pc' == PopLoadHead(|s.past|)) && Abs(s') == Abs(s))
  }

  lemma PutPcs<T>(s: State<T>, p: Tid, a: Action<T>)
    requires Putting(PcOf(s, p)) || PcOf(s, p).PushSwing?
    ensures var pc, pc' := PcOf(s, p), PcOf(Next(s, p, a), p);
      && (Putting(pc) ==> if Putting(pc') then pc'.v == pc.v else pc.PushLink? && pc'.PushSwing?)
      && (pc.PushSwing? ==> pc' == pc || pc'.PushEnd?)
  {
    hide AdvanceTail, Abs;
  }

  lemma PutAnswers<T>(s: State<T>, p: Tid, a: Action<T>)
    requires Inv(s) && (Putting(PcOf(s, p)) || PcOf(s, p).PushSwing?)
    ensures Answers(s, Next(s, p, a), p)
  {
    hide Inv, Abs, Next;
    StepRefinesQueue(s, p, a);
    PutPcs(s, p, a);
  }

  lemma CheckAnswers<T>(s: State<T>, p: Tid, a: Action<T>)
    requires Inv(s) && PcOf(s, p).PopCheck?
    ensures Answers(s, Next(s, p, a), p)
  {
    StepRefinesQueue(s, p, a);
    assert ThreadInv(s, p);
    hide Inv, Abs;
  }

  lemma SeekPcs<T>(s: State<T>, p: Tid, a: Action<T>)
    requires Seeking(PcOf(s, p)) && !PcOf(s, p).PopCheck?
    ensures var pc, pc' := PcOf(s, p), PcOf(Next(s, p, a), p);
      if Seeking(pc') then pc'.since == pc.since else pc.PopCas? && pc'.FreeLoad?
  {
    hide AdvanceTail, Abs, Check;
  }

  lemma SeekAnswers<T>(s: State<T>, p: Tid, a: Action<T>)
    requires Inv(s) && Seeking(PcOf(s, p)) && !PcOf(s, p).PopCheck?
    ensures Answers(s, Next(s, p, a), p)
  {
    StepRefinesQueue(s, p, a);
    SeekPcs(s, p, a);
    if PcOf(Next(s, p, a), p).FreeLoad? { TakenFirst(s, Next(s, p, a), p); }
    hide Inv, Abs, Next;
  }

  lemma TakenFirst<T>(s: State<T>, s': State<T>, p: Tid)
    requires Refines(s, p, s') && PcOf(s, p).PopCas? && PcOf(s', p).FreeLoad?
    ensures Abs(s) == [PcOf(s', p).r] + Abs(s')
  {
    hide Abs;
  }

  lemma FreeAnswers<T>(s: State<T>, p: Tid, a: Action<T>)
    requires Inv(s) && Freeing(PcOf(s, p))
    ensures Answers(s, Next(s, p, a), p)
  {
    StepRefinesQueue(s, p, a);
    hide Inv, Abs, Next;
  }

  lemma EdgeAnswers<T>(s: State<T>, p: Tid, a: Action<T>)
    requires Inv(s) && (PcOf(s, p).Idle? || Ended(PcOf(s, p)))
    ensures Answers(s, Next(s, p, a), p)
  {
    StepRefinesQueue(s, p, a);
    hide Inv, Abs;
  }

  /** Every step of every thread. */
  lemma AnswersMean<T>(s: State<T>, p: Tid, a: Action<T>)
    requires Inv(s)
    ensures Answers(s, Next(s, p, a), p)
  {
    hide Inv, Next, Answers;
    var pc := PcOf(s, p);
    if Putting(pc) || pc.PushSwing? {
      PutAnswers(s, p, a);
    } else if Freeing(pc) {
      FreeAnswers(s, p, a);
    } else if pc.PopCheck? {
      CheckAnswers(s, p, a);
    } else if pc.Idle? || Ended(pc) {
      EdgeAnswers(s, p, a);
    } else {
      SeekAnswers(s, p, a);
    }
  }

  lemma PushStarts<T>(s: State<T>, p: Tid, v: T)
    requires PcOf(s, p).Idle?
    ensures PcOf(Next(s, p, CallPush(v)), p) == PushAlloc(v) && Abs(Next(s, p, CallPush(v))) == Abs(s)
  {
  }

  lemma PopStarts<T>(s: State<T>, p: Tid)
    requires PcOf(s, p).Idle?
    ensures PcOf(Next(s, p, CallPop), p) == PopLoadHead(|s.past|) && Abs(Next(s, p, CallPop)) == Abs(s)
  {
  }

  /** A push that does not fail spuriously at the end leaves the tail at its node, or past it. */
  lemma SwingReaches<T>(s: State<T>, p: Tid) returns (k: nat)
    requires Inv(s) && PcOf(s, p).PushSwing?
    ensures var s' := Next(s, p, Step(false));
      && PcOf(s', p).PushEnd? && k < |s'.chain| && s'.chain[k] == PcOf(s, p).n && s'.tail.count >= k
  {
    assert ThreadInv(s, p);
    k := PcOf(s, p).tail.count + 1;
    hide Abs, ChainInv, NodeInv, FateInv, PoolInv, FreeInv, EmptyInv;
  }

  // ----- over whole calls --------------------------------------------------------------------------

  /** The state after the first `k` steps of a run. */
  function After<T>(s: State<T>, t: seq<(Tid, Action<T>)>, k: nat): State<T>
    requires k <= |t|
  {
    Run(s, t[..k])
  }

  lemma {:induction false} RunAppends<T>(s: State<T>, a: seq<(Tid, Action<T>)>, b: seq<(Tid, Action<T>)>)
    ensures Run(s, a + b) == Run(Run(s, a), b)
    decreases |a|
  {
    hide Next;
    if a == [] {
      assert a + b == b;
    } else {
      assert (a + b)[1..] == a[1..] + b;
      RunAppends(Next(s, a[0].0, a[0].1), a[1..], b);
    }
  }

  lemma OneMore<T>(s: State<T>, t: seq<(Tid, Action<T>)>, k: nat)
    requires k < |t|
    ensures After(s, t, k + 1) == Next(After(s, t, k), t[k].0, t[k].1)
  {
    hide Next;
    var last: seq<(Tid, Action<T>)> := [t[k]];
    assert t[..k + 1] == t[..k] + last && last[1..] == [];
    RunAppends(s, t[..k], last);
    assert Run(Next(After(s, t, k), t[k].0, t[k].1), []) == Next(After(s, t, k), t[k].0, t[k].1);
  }

  lemma AfterKeepsInv<T>(s: State<T>, t: seq<(Tid, Action<T>)>, k: nat)
    requires Inv(s) && k <= |t|
    ensures Inv(After(s, t, k))
  {
    RunKeepsInv(s, t[..k]);
    hide Inv, Run;
  }

  /** What a step put at the back of the queue. */
  function PutIn<T>(q: seq<T>, q': seq<T>): seq<T> { if |q'| > |q| then [q'[|q'| - 1]] else [] }

  /** What a step took from its front. */
  function TakenOut<T>(q: seq<T>, q': seq<T>): seq<T> { if |q'| < |q| then [q[0]] else [] }

  /** What the steps of `p` from step `i` to step `k` put into the queue, and took out of it. */
  function Puts<T>(s: State<T>, t: seq<(Tid, Action<T>)>, p: Tid, i: nat, k: nat): seq<T>
    requires i <= k <= |t|
    decreases k
  {
    if i == k then [] else
      Puts(s, t, p, i, k - 1)
      + if t[k - 1].0 == p then PutIn(Abs(After(s, t, k - 1)), Abs(After(s, t, k))) else []
  }

  function Takes<T>(s: State<T>, t: seq<(Tid, Action<T>)>, p: Tid, i: nat, k: nat): seq<T>
    requires i <= k <= |t|
    decreases k
  {
    if i == k then [] else
      Takes(s, t, p, i, k - 1)
      + if t[k - 1].0 == p then TakenOut(Abs(After(s, t, k - 1)), Abs(After(s, t, k))) else []
  }

  /** How far a `push` of `v` is, by what it has put in and taken out. */
  ghost predicate PushSoFar<T>(pc: Pc<T>, v: T, puts: seq<T>, takes: seq<T>) {
    && takes == []
    && (Putting(pc) ==> pc.v == v && puts == []) && (pc.PushSwing? || pc.PushEnd? ==> puts == [v])
    && (Putting(pc) || pc.PushSwing? || pc.PushEnd?)
  }

  /** How far a `pop` called at step `i` is. */
  ghost predicate PopSoFar<T>(pc: Pc<T>, i: nat, past: seq<seq<T>>, puts: seq<T>, takes: seq<T>) {
    && puts == []
    && (Seeking(pc) ==> pc.since == i && takes == []) && (Freeing(pc) ==> takes == [pc.r])
    && (pc.PopEnd? && pc.result.Some? ==> takes == [pc.result.value])
    && (pc.PopEnd? && pc.result.None? ==> takes == [] && exists j: nat :: i <= j < |past| && past[j] == [])
    && (Seeking(pc) || Freeing(pc) || pc.PopEnd?)
  }

  lemma PushStep<T>(s: State<T>, s': State<T>, p: Tid, v: T, puts: seq<T>, takes: seq<T>)
    requires Answers(s, s', p) && PushSoFar(PcOf(s, p), v, puts, takes) && !PcOf(s', p).Idle?
    ensures PushSoFar(PcOf(s', p), v, puts + PutIn(Abs(s), Abs(s')), takes + TakenOut(Abs(s), Abs(s')))
  {
    hide Abs;
  }

  lemma SeekStep<T>(s: State<T>, s': State<T>, p: Tid, i: nat)
    requires Answers(s, s', p) && PopSoFar(PcOf(s, p), i, s.past, [], []) && Seeking(PcOf(s, p)) && s.past <= s'.past
    ensures PopSoFar(PcOf(s', p), i, s'.past, PutIn(Abs(s), Abs(s')), TakenOut(Abs(s), Abs(s')))
  {
    hide Abs;
    if PcOf(s', p) == PopEnd(None) {
      var j: nat :| i <= j < |s.past| && s.past[j] == [];
      assert s'.past[j] == [];
    }
  }

  lemma FreeStep<T>(s: State<T>, s': State<T>, p: Tid, i: nat, takes: seq<T>)
    requires Answers(s, s', p) && PopSoFar(PcOf(s, p), i, s.past, [], takes) && Freeing(PcOf(s, p))
    ensures PopSoFar(PcOf(s', p), i, s'.past, [], takes) && Abs(s') == Abs(s)
  {
    hide Abs;
  }

  lemma PopStep<T>(s: State<T>, s': State<T>, p: Tid, i: nat, puts: seq<T>, takes: seq<T>)
    requires Answers(s, s', p) && PopSoFar(PcOf(s, p), i, s.past, puts, takes)
    requires !PcOf(s', p).Idle? && s.past <= s'.past
    ensures PopSoFar(PcOf(s', p), i, s'.past, puts + PutIn(Abs(s), Abs(s')), takes + TakenOut(Abs(s), Abs(s')))
  {
    hide Abs, Answers;
    if Seeking(PcOf(s, p)) {
      SeekStep(s, s', p, i);
    } else if Freeing(PcOf(s, p)) {
      FreeStep(s, s', p, i, takes);
    } else {
      EndStep(s, s', p);
      PopStays(PcOf(s, p), i, s.past, s'.past, puts, takes);
    }
  }

  lemma EndStep<T>(s: State<T>, s': State<T>, p: Tid)
    requires Answers(s, s', p) && Ended(PcOf(s, p)) && !PcOf(s', p).Idle?
    ensures PcOf(s', p) == PcOf(s, p) && Abs(s') == Abs(s)
  {
    hide Abs;
  }

  lemma {:induction false} PushGoesOn<T>(s: State<T>, t: seq<(Tid, Action<T>)>, p: Tid, v: T, i: nat, k: nat)
    requires Inv(s) && i < k <= |t| && t[i] == (p, CallPush(v)) && PcOf(After(s, t, i), p).Idle?
    requires forall j: nat :: i < j <= k ==> !PcOf(After(s, t, j), p).Idle?
    ensures PushSoFar(PcOf(After(s, t, k), p), v, Puts(s, t, p, i, k), Takes(s, t, p, i, k))
    decreases k
  {
    hide After, Next, Inv, PushSoFar, Abs, Answers;
    AfterKeepsInv(s, t, k - 1);
    OneMore(s, t, k - 1);
    var before := After(s, t, k - 1);
    if k - 1 == i {
      PushStarts(before, p, v);
      Untouched(Abs(before));
      PushIsNew(v);
    } else {
      PushGoesOn(s, t, p, v, i, k - 1);
      if t[k - 1].0 == p {
        AnswersMean(before, p, t[k - 1].1);
        PushStep(before, After(s, t, k), p, v, Puts(s, t, p, i, k - 1), Takes(s, t, p, i, k - 1));
      } else {
        StaysApart(before, t[k - 1].0, t[k - 1].1);
        assert Puts(s, t, p, i, k) == Puts(s, t, p, i, k - 1) && Takes(s, t, p, i, k) == Takes(s, t, p, i, k - 1);
      }
    }
  }

  lemma PushIsNew<T>(v: T)
    ensures PushSoFar(PushAlloc(v), v, [], [])
  {
  }

  lemma Untouched<T>(q: seq<T>)
    ensures PutIn(q, q) == [] && TakenOut(q, q) == []
  {
  }

  /**
    A whole `push`, in any run: when it is about to return, its steps have put exactly its value at
    the back of the queue, once, and taken nothing out.
   */
  lemma PushTakesEffectOnce<T>(blank: T, t: seq<(Tid, Action<T>)>, p: Tid, v: T, i: nat, k: nat)
    requires i < k <= |t| && t[i] == (p, CallPush(v)) && PcOf(After(Init(blank), t, i), p).Idle?
    requires forall j: nat :: i < j <= k ==> !PcOf(After(Init(blank), t, j), p).Idle?
    requires Ended(PcOf(After(Init(blank), t, k), p))
    ensures PcOf(After(Init(blank), t, k), p).PushEnd?
    ensures Puts(Init(blank), t, p, i, k) == [v] && Takes(Init(blank), t, p, i, k) == []
  {
    InitInv(blank);
    PushGoesOn(Init(blank), t, p, v, i, k);
    hide Inv, Init, After, Next, Puts, Takes;
  }

  /** The recorded past of a run is what the queue held before each step. */
  lemma {:induction false} PastIsHistory<T>(s: State<T>, t: seq<(Tid, Action<T>)>, k: nat)
    requires s.past == [] && k <= |t|
    ensures var past := After(s, t, k).past; |past| == k && forall j: nat :: j < k ==> past[j] == Abs(After(s, t, j))
    decreases k
  {
    hide After, Abs, Move;
    if k == 0 {
      NoSteps(s, t);
    } else {
      PastIsHistory(s, t, k - 1);
      OneMore(s, t, k - 1);
    }
  }

  lemma NoSteps<T>(s: State<T>, t: seq<(Tid, Action<T>)>)
    ensures After(s, t, 0) == s
  {
  }

  lemma PopIsNew<T>(i: nat, past: seq<seq<T>>)
    ensures PopSoFar<T>(PopLoadHead(i), i, past, [], [])
  {
  }

  lemma PopStays<T>(pc: Pc<T>, i: nat, past: seq<seq<T>>, past': seq<seq<T>>, puts: seq<T>, takes: seq<T>)
    requires PopSoFar(pc, i, past, puts, takes) && past <= past'
    ensures PopSoFar(pc, i, past', puts, takes)
  {
    if pc == PopEnd(None) {
      var j: nat :| i <= j < |past| && past[j] == [];
      assert past'[j] == [];
    }
  }

  lemma PastGrows<T>(s: State<T>, p: Tid, a: Action<T>)
    ensures s.past <= Next(s, p, a).past
  {
    hide Move, Abs;
  }

  lemma {:induction false} PopGoesOn<T>(s: State<T>, t: seq<(Tid, Action<T>)>, p: Tid, i: nat, k: nat)
    requires Inv(s) && s.past == [] && i < k <= |t| && t[i] == (p, CallPop) && PcOf(After(s, t, i), p).Idle?
    requires forall j: nat :: i < j <= k ==> !PcOf(After(s, t, j), p).Idle?
    ensures PopSoFar(PcOf(After(s, t, k), p), i, After(s, t, k).past, Puts(s, t, p, i, k), Takes(s, t, p, i, k))
    decreases k
  {
    hide After, Next, Inv, PopSoFar, Abs, Answers;
    AfterKeepsInv(s, t, k - 1);
    OneMore(s, t, k - 1);
    var before := After(s, t, k - 1);
    PastGrows(before, t[k - 1].0, t[k - 1].1);
    if k - 1 == i {
      PastIsHistory(s, t, i);
      PopStarts(before, p);
      Untouched(Abs(before));
      PopIsNew(i, After(s, t, k).past);
    } else {
      PopGoesOn(s, t, p, i, k - 1);
      if t[k - 1].0 == p {
        AnswersMean(before, p, t[k - 1].1);
        PopStep(before, After(s, t, k), p, i, Puts(s, t, p, i, k - 1), Takes(s, t, p, i, k - 1));
      } else {
        StaysApart(before, t[k - 1].0, t[k - 1].1);
        assert Puts(s, t, p, i, k) == Puts(s, t, p, i, k - 1) && Takes(s, t, p, i, k) == Takes(s, t, p, i, k - 1);
        PopStays(PcOf(before, p), i, before.past, After(s, t, k).past, Puts(s, t, p, i, k), Takes(s, t, p, i, k));
      }
    }
  }

  /**
    A whole `pop`, in any run: when it is about to answer with a value, its steps have taken exactly
    that value from the front of the queue, once; when it is about to answer false they have taken
    nothing, and at some moment of the call the queue was empty.
   */
  lemma PopTakesEffectOnce<T>(blank: T, t: seq<(Tid, Action<T>)>, p: Tid, i: nat, k: nat)
    requires i < k <= |t| && t[i] == (p, CallPop) && PcOf(After(Init(blank), t, i), p).Idle?
    requires forall j: nat :: i < j <= k ==> !PcOf(After(Init(blank), t, j), p).Idle?
    requires Ended(PcOf(After(Init(blank), t, k), p))
    ensures var pc, puts, takes := PcOf(After(Init(blank), t, k), p), Puts(Init(blank), t, p, i, k),
        Takes(Init(blank), t, p, i, k);
      && pc.PopEnd? && puts == []
      && match pc.result
         case Some(r) => takes == [r]
         case None => takes == [] && exists j: nat :: i <= j < k && Abs(After(Init(blank), t, j)) == []
  {
    InitInv(blank);
    PopGoesOn(Init(blank), t, p, i, k);
    PastIsHistory(Init(blank), t, k);
    hide Inv, Init, After, Next, Puts, Takes, Abs;
    var s := After(Init(blank), t, k);
    if PcOf(s, p) == PopEnd(None) {
      var j: nat :| i <= j < |s.past| && s.past[j] == [];
      assert Abs(After(Init(blank), t, j)) == [];
    }
  }

  // ----- calls left alone ----------------------------------------------------------------------------

  /** `p` alone goes on until its call ends; `spurious` says which of its exchanges fail spuriously. */
  function Solo<T>(s: State<T>, p: Tid, spurious: seq<bool>): State<T>
    decreases |spurious|
  {
    if spurious == [] || Ended(PcOf(s, p)) then s else Solo(Next(s, p, Step(spurious[0])), p, spurious[1..])
  }

  /** A node is linked behind the one that `tail_` points to. */
  predicate Lags<T>(s: State<T>) { s.tail.count + 1 < |s.chain| }

  /** The steps of a lone `push` from its load of the tail to its end. */
  function PushWay<T>(s: State<T>): nat { if Lags(s) then 9 else 5 }

  function PushRank<T>(s: State<T>, p: Tid): nat {
    match PcOf(s, p)
    case PushAlloc(_) => PushWay(s) + 1
    case PushLoadTail(_, _) => PushWay(s)
    case PushLoadNext(_, _, tail) => if tail == s.tail then PushWay(s) - 1 else PushWay(s) + 2
    case PushCheck(_, _, tail, next) =>
      if tail != s.tail then PushWay(s) + 1
      else if next.id != 0 then 7
      else if NextOf(s, tail.id) == next then 3
      else PushWay(s) + 2
    case PushLink(_, _, tail, next) => if NextOf(s, tail.id) == next then 2 else PushWay(s) + 1
    case PushHelp(_, _, tail, _) => if tail == s.tail then 6 else PushWay(s) + 1
    case PushSwing(_, _) => 1
    case _ => 0
  }

  /** What the queue holds when the push has ended. */
  function PushOutcome<T>(s: State<T>, p: Tid): seq<T> {
    if Putting(PcOf(s, p)) then Abs(s) + [PcOf(s, p).v] else Abs(s)
  }

  ghost predicate Pushes<T>(pc: Pc<T>) { Putting(pc) || pc.PushSwing? || pc.PushEnd? }

  lemma LoadTailNears<T>(s: State<T>, p: Tid, spurious: bool)
    requires Inv(s) && (PcOf(s, p).PushAlloc? || PcOf(s, p).PushLoadTail?)
    ensures PushRank(Next(s, p, Step(spurious)), p) < PushRank(s, p)
  {
    hide Inv, Abs;
  }

  lemma LoadNextNears<T>(s: State<T>, p: Tid, spurious: bool)
    requires Inv(s) && PcOf(s, p).PushLoadNext?
    ensures PushRank(Next(s, p, Step(spurious)), p) < PushRank(s, p)
  {
    LiveNext(s, s.tail.count);
    assert EndsInv(s);
    hide Inv, Abs, MemoryInv;
  }

  lemma CheckNears<T>(s: State<T>, p: Tid, spurious: bool)
    requires Inv(s) && PcOf(s, p).PushCheck?
    ensures PushRank(Next(s, p, Step(spurious)), p) < PushRank(s, p)
  {
    assert ThreadInv(s, p);
    hide Abs, MemoryInv;
  }

  lemma LinkNears<T>(s: State<T>, p: Tid, spurious: bool)
    requires Inv(s) && PcOf(s, p).PushLink? && !spurious
    ensures PushRank(Next(s, p, Step(spurious)), p) < PushRank(s, p)
  {
    assert ThreadInv(s, p);
    hide Abs, MemoryInv;
  }

  lemma HelpNears<T>(s: State<T>, p: Tid, spurious: bool)
    requires Inv(s) && (PcOf(s, p).PushHelp? || PcOf(s, p).PushSwing?) && !spurious
    ensures PushRank(Next(s, p, Step(spurious)), p) < PushRank(s, p)
  {
    assert ThreadInv(s, p) && EndsInv(s);
    hide Abs, MemoryInv;
  }

  lemma PushNears<T>(s: State<T>, p: Tid, spurious: bool)
    requires Inv(s) && (Putting(PcOf(s, p)) || PcOf(s, p).PushSwing?)
    ensures var s' := Next(s, p, Step(spurious));
      && Inv(s') && Pushes(PcOf(s', p)) && PushOutcome(s', p) == PushOutcome(s, p)
      && (spurious || PushRank(s', p) < PushRank(s, p))
  {
    hide Inv, Next, PushRank, Abs;
    NextKeepsInv(s, p, Step(spurious));
    AnswersMean(s, p, Step(spurious));
    if PcOf(s, p).PushSwing? { StepMoves(s, p, spurious); }
    match PcOf(s, p)
    case PushAlloc(_) => LoadTailNears(s, p, spurious);
    case PushLoadTail(_, _) => LoadTailNears(s, p, spurious);
    case PushLoadNext(_, _, _) => LoadNextNears(s, p, spurious);
    case PushCheck(_, _, _, _) => CheckNears(s, p, spurious);
    case PushLink(_, _, _, _) => if !spurious { LinkNears(s, p, spurious); }
    case _ => if !spurious { HelpNears(s, p, spurious); }
  }

  lemma StepMoves<T>(s: State<T>, p: Tid, spurious: bool)
    requires PcOf(s, p).PushSwing?
    ensures PcOf(Next(s, p, Step(spurious)), p).PushEnd?
  {
    hide AdvanceTail, Abs;
  }

  lemma PushBounds<T>(s: State<T>, p: Tid)
    ensures PushRank(s, p) <= 11 && (Putting(PcOf(s, p)) || PcOf(s, p).PushSwing? ==> PushRank(s, p) > 0)
    ensures PcOf(s, p).PushEnd? ==> PushOutcome(s, p) == Abs(s)
  {
    hide Abs;
  }

  /**
    A `push` that is left alone, wherever it is, wherever the others have stopped, and however many of
    its exchanges fail spuriously before, returns with its value at the back of the queue.
   */
  lemma {:induction false} LonePush<T>(s: State<T>, p: Tid, spurious: seq<bool>, n: nat)
    requires Inv(s) && Pushes(PcOf(s, p)) && Steady(spurious, n) && (n >= 11 || |spurious| == n >= PushRank(s, p))
    ensures var s' := Solo(s, p, spurious); Inv(s') && PcOf(s', p).PushEnd? && Abs(s') == PushOutcome(s, p)
    decreases |spurious|
  {
    hide Inv, Next, PushRank, PushOutcome, Abs;
    PushBounds(s, p);
    if !PcOf(s, p).PushEnd? {
      PushNears(s, p, spurious[0]);
      StillSteady(spurious, n);
      LonePush(Next(s, p, Step(spurious[0])), p, spurious[1..], if |spurious| > n then n else n - 1);
    }
  }

  /** The steps of a lone `pop` from its load of the head to its end. */
  function PopWay<T>(s: State<T>): nat {
    if Abs(s) == [] then 4 else if s.head.count == s.tail.count then 14 else 9
  }

  function PopRank<T>(s: State<T>, p: Tid): nat {
    match PcOf(s, p)
    case PopLoadHead(_) => PopWay(s)
    case PopLoadTail(_, head) => if head == s.head then PopWay(s) - 1 else PopWay(s) + 3
    case PopLoadNext(_, head, tail) =>
      if head != s.head then PopWay(s) + 2
      else if tail != head then 7
      else if Abs(s) == [] then 2
      else 12
    case PopCheck(_, head, tail, next, _) =>
      if head != s.head then PopWay(s) + 1
      else if tail != head then 6
      else if next.id == 0 then 1
      else 11
    case PopHelp(_, tail, _) => if tail == s.tail then 10 else PopWay(s) + 1
    case PopReadData(_, head, _) => if head == s.head then 5 else PopWay(s) + 2
    case PopCas(_, head, _, _) => if head == s.head then 4 else PopWay(s) + 1
    case FreeLoad(_, _) => 3
    case FreeStore(_, _, free) => if free == s.free then 2 else 5
    case FreeCas(_, _, free) => if free == s.free then 1 else 4
    case _ => 0
  }

  /** What the pop comes to: its answer, and the queue afterwards. A pop that has seen an empty queue answers false. */
  function PopOutcome<T>(s: State<T>, p: Tid): (Option<T>, seq<T>) {
    var pc := PcOf(s, p);
    if pc.PopEnd? then (pc.result, Abs(s))
    else if Freeing(pc) then (Some(pc.r), Abs(s))
    else if Abs(s) == [] || (pc.PopCheck? && pc.head == s.head && pc.tail == pc.head && pc.next.id == 0) then
      (None, Abs(s))
    else (Some(Abs(s)[0]), Abs(s)[1..])
  }

  ghost predicate Pops<T>(pc: Pc<T>) { Seeking(pc) || Freeing(pc) || pc.PopEnd? }

  ghost predicate PopNearer<T>(s: State<T>, s': State<T>, p: Tid, spurious: bool) {
    Pops(PcOf(s', p)) && PopOutcome(s', p) == PopOutcome(s, p) && (spurious || PopRank(s', p) < PopRank(s, p))
  }

  /** The loads: the queue does not change, and if it is not empty the head has a successor. */
  lemma LoadHeadNears<T>(s: State<T>, p: Tid, spurious: bool)
    requires Inv(s) && (PcOf(s, p).PopLoadHead? || PcOf(s, p).PopLoadTail?)
    ensures PopNearer(s, Next(s, p, Step(spurious)), p, spurious)
  {
    hide Next;
    assert ThreadInv(s, p) && EndsInv(s);
    LoadMoves(s, p, spurious);
  }

  lemma LoadMoves<T>(s: State<T>, p: Tid, spurious: bool)
    requires PcOf(s, p).PopLoadHead? || PcOf(s, p).PopLoadTail?
    ensures var s' := Next(s, p, Step(spurious));
      && s' == s.(pcs := s'.pcs, past := s'.past)
      && PcOf(s', p) == if PcOf(s, p).PopLoadHead? then PopLoadTail(PcOf(s, p).since, s.head)
                        else PopLoadNext(PcOf(s, p).since, PcOf(s, p).head, s.tail)
  {
    hide Abs;
  }

  lemma PopLoadNextNears<T>(s: State<T>, p: Tid, spurious: bool)
    requires Inv(s) && PcOf(s, p).PopLoadNext?
    ensures PopNearer(s, Next(s, p, Step(spurious)), p, spurious)
  {
    assert ThreadInv(s, p) && EndsInv(s);
    LiveNext(s, s.head.count);
    hide MemoryInv;
  }

  /** What the queue is like when the check finds the head unchanged. */
  lemma CheckKnows<T>(s: State<T>, p: Tid)
    requires Inv(s) && PcOf(s, p).PopCheck? && PcOf(s, p).head == s.head
    ensures var pc := PcOf(s, p);
      && (pc.tail != pc.head ==> s.tail != s.head && Abs(s) != [])
      && (pc.tail == pc.head && pc.next.id != 0 ==> Abs(s) != [])
  {
    assert ThreadInv(s, p) && EndsInv(s);
    hide MemoryInv;
  }

  lemma CheckGoes<T>(s: State<T>, p: Tid, spurious: bool)
    requires PcOf(s, p).PopCheck?
    ensures var s', pc := Next(s, p, Step(spurious)), PcOf(s, p); var pc' := PcOf(s', p);
      && s'.head == s.head && s'.tail == s.tail && Abs(s') == Abs(s)
      && pc' == if pc.head != s.head then PopLoadHead(pc.since)
                else if pc.tail != pc.head then PopReadData(pc.since, pc.head, pc.next)
                else if pc.next.id == 0 then PopEnd(None)
                else PopHelp(pc.since, pc.tail, pc.next)
  {
  }

  lemma PopCheckNears<T>(s: State<T>, p: Tid, spurious: bool)
    requires Inv(s) && PcOf(s, p).PopCheck?
    ensures PopNearer(s, Next(s, p, Step(spurious)), p, spurious)
  {
    if PcOf(s, p).head == s.head { CheckKnows(s, p); }
    CheckGoes(s, p, spurious);
    hide Inv, Next, Abs;
  }

  lemma PopHelpNears<T>(s: State<T>, p: Tid, spurious: bool)
    requires Inv(s) && PcOf(s, p).PopHelp?
    ensures PopNearer(s, Next(s, p, Step(spurious)), p, spurious)
  {
    assert ThreadInv(s, p) && EndsInv(s);
    hide MemoryInv;
  }

  lemma ReadGoes<T>(s: State<T>, p: Tid, spurious: bool)
    requires PcOf(s, p).PopReadData? && PcOf(s, p).next.id < |s.heap|
    ensures var s', pc := Next(s, p, Step(spurious)), PcOf(s, p); var pc' := PcOf(s', p);
      && s'.head == s.head && s'.tail == s.tail && Abs(s') == Abs(s)
      && pc'.PopCas? && pc'.head == pc.head && pc'.next == pc.next
  {
  }

  lemma PopReadNears<T>(s: State<T>, p: Tid, spurious: bool)
    requires Inv(s) && PcOf(s, p).PopReadData?
    ensures PopNearer(s, Next(s, p, Step(spurious)), p, spurious)
  {
    assert ThreadInv(s, p) && ChainInv(s, PcOf(s, p).head.count + 1);
    ReadGoes(s, p, spurious);
    hide Inv, Next, Abs, ChainInv;
  }

  lemma PopCasRank<T>(s: State<T>, p: Tid, spurious: bool)
    requires Inv(s) && PcOf(s, p).PopCas? && !spurious
    ensures PopRank(Next(s, p, Step(spurious)), p) < PopRank(s, p)
  {
    assert ThreadInv(s, p) && EndsInv(s);
    hide MemoryInv;
  }

  lemma PopCasNears<T>(s: State<T>, p: Tid, spurious: bool)
    requires Inv(s) && PcOf(s, p).PopCas?
    ensures PopNearer(s, Next(s, p, Step(spurious)), p, spurious)
  {
    AnswersMean(s, p, Step(spurious));
    SeekPcs(s, p, Step(spurious));
    CasGoesBack(s, p, spurious);
    if !spurious { PopCasRank(s, p, spurious); }
    hide Inv, Next, Abs, PopRank;
  }

  lemma CasGoesBack<T>(s: State<T>, p: Tid, spurious: bool)
    requires PcOf(s, p).PopCas?
    ensures PcOf(Next(s, p, Step(spurious)), p).PopLoadHead? || PcOf(Next(s, p, Step(spurious)), p).FreeLoad?
  {
    hide Abs;
  }

  lemma FreeLoadNears<T>(s: State<T>, p: Tid, spurious: bool)
    requires PcOf(s, p).FreeLoad? || PcOf(s, p).FreeStore?
    ensures PopNearer(s, Next(s, p, Step(spurious)), p, spurious)
  {
    hide Release;
  }

  lemma ReleaseNears<T>(s: State<T>, p: Tid, spurious: bool)
    requires Inv(s) && PcOf(s, p).FreeCas?
    ensures PopNearer(s, Next(s, p, Step(spurious)), p, spurious)
  {
    assert ThreadInv(s, p) && EndsInv(s);
    hide Inv;
  }

  lemma PopNears<T>(s: State<T>, p: Tid, spurious: bool)
    requires Inv(s) && Pops(PcOf(s, p)) && !PcOf(s, p).PopEnd?
    ensures Inv(Next(s, p, Step(spurious))) && PopNearer(s, Next(s, p, Step(spurious)), p, spurious)
  {
    hide Inv, Next, PopNearer;
    NextKeepsInv(s, p, Step(spurious));
    match PcOf(s, p)
    case PopLoadHead(_) => LoadHeadNears(s, p, spurious);
    case PopLoadTail(_, _) => LoadHeadNears(s, p, spurious);
    case PopLoadNext(_, _, _) => PopLoadNextNears(s, p, spurious);
    case PopCheck(_, _, _, _, _) => PopCheckNears(s, p, spurious);
    case PopHelp(_, _, _) => PopHelpNears(s, p, spurious);
    case PopReadData(_, _, _) => PopReadNears(s, p, spurious);
    case PopCas(_, _, _, _) => PopCasNears(s, p, spurious);
    case FreeCas(_, _, _) => ReleaseNears(s, p, spurious);
    case _ => FreeLoadNears(s, p, spurious);
  }

  lemma PopBounds<T>(s: State<T>, p: Tid)
    ensures PopRank(s, p) <= 17 && (Pops(PcOf(s, p)) && !PcOf(s, p).PopEnd? ==> PopRank(s, p) > 0)
    ensures PcOf(s, p).PopEnd? ==> PopOutcome(s, p) == (PcOf(s, p).result, Abs(s))
  {
    hide Abs;
  }

  /** The same for a `pop`: it answers with the first value, or false if there is none or it has seen that. */
  lemma {:induction false} LonePop<T>(s: State<T>, p: Tid, spurious: seq<bool>, n: nat)
    requires Inv(s) && Pops(PcOf(s, p)) && Steady(spurious, n) && (n >= 17 || |spurious| == n >= PopRank(s, p))
    ensures var s' := Solo(s, p, spurious);
      Inv(s') && PcOf(s', p).PopEnd? && (PcOf(s', p).result, Abs(s')) == PopOutcome(s, p)
    decreases |spurious|
  {
    hide Inv, Next, PopRank, PopOutcome, Abs;
    PopBounds(s, p);
    if !PcOf(s, p).PopEnd? {
      PopNears(s, p, spurious[0]);
      StillSteady(spurious, n);
      LonePop(Next(s, p, Step(spurious[0])), p, spurious[1..], if |spurious| > n then n else n - 1);
    }
  }

  /** Whole calls left alone, wherever the others have stopped, answer as a queue does. */
  lemma LoneCalls<T>(s: State<T>, p: Tid, v: T, spurious: seq<bool>)
    requires Inv(s) && PcOf(s, p).Idle? && Steady(spurious, 17)
    ensures var s' := Solo(Next(s, p, CallPush(v)), p, spurious); PcOf(s', p) == PushEnd && Abs(s') == Abs(s) + [v]
    ensures var s' := Solo(Next(s, p, CallPop), p, spurious);
      && PcOf(s', p) == PopEnd(if Abs(s) == [] then None else Some(Abs(s)[0]))
      && Abs(s') == if Abs(s) == [] then [] else Abs(s)[1..]
  {
    hide Next, Inv, Abs;
    NextKeepsInv(s, p, CallPush(v));
    NextKeepsInv(s, p, CallPop);
    PushStarts(s, p, v);
    PopStarts(s, p);
    LonePush(Next(s, p, CallPush(v)), p, spurious, 17);
    LonePop(Next(s, p, CallPop), p, spurious, 17);
  }
}
