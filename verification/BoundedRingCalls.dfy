/**
  The calls of the bounded ring from their start to their answer: what each answer means, how often
  a call takes effect, and that a call left alone comes to an end.
 */
module BoundedRingCalls {
  import opened Common
  import opened RingIndex
  import opened BoundedRing

  /** In a `push`, which has not answered; `v` is its value. */
  predicate Pushes<T>(pc: Pc<T>) {
    pc.PushLoadTail? || pc.PushLoadSeq? || pc.PushCasTail? || pc.PushWrite? || pc.PushPublish?
  }

  predicate Pops<T>(pc: Pc<T>) {
    pc.PopLoadHead? || pc.PopLoadSeq? || pc.PopCasHead? || pc.PopRead? || pc.PopRelease?
  }

  predicate Ended<T>(pc: Pc<T>) { pc.PushEnd? || pc.PopEnd? }

  /** What a `push` may answer false on: a full ring, or a claimed cell that its pop has yet to release. */
  ghost predicate MayRefuse<T>(s: State<T>) {
    s.tail == s.head + s.size || exists q: Tid :: s.tail >= s.size && Releasing(PcOf(s, q), s.tail - s.size)
  }

  /** What a `pop` may answer false on: an empty ring, or a claimed cell that its push has yet to publish. */
  ghost predicate MayMiss<T>(s: State<T>) {
    s.head == s.tail || exists q: Tid :: Publishing(PcOf(s, q), s.head)
  }

  /** A step of a call on its way: it goes on with its value, or answers, and its answer means what it says. */
  ghost predicate Answers<T>(s: State<T>, s': State<T>, p: Tid) {
    var pc, pc' := PcOf(s, p), PcOf(s', p);
    && (Pushes(pc) ==> (Pushes(pc') && pc'.v == pc.v) || pc'.PushEnd?)
    && (Pops(pc) ==> Pops(pc') || pc'.PopEnd?)
    && (!Ended(pc) && pc'.PushEnd? ==>
          if pc'.ok then
            pc.PushPublish? && pc.t < |s.pushed| == |s.pushers| && s.pushed[pc.t] == pc.v && s.pushers[pc.t] == p
          else pc.PushLoadSeq? && pc.t == s.tail && MayRefuse(s))
    && (!Ended(pc) && pc'.PopEnd? ==>
          if pc'.result.Some? then
            && pc.PopRelease? && pc.h < |s.poppers| && pc.h < |s.pushed|
            && s.poppers[pc.h] == p && s.pushed[pc.h] == pc'.result.value
          else pc.PopLoadSeq? && pc.h == s.head && MayMiss(s))
    && (Ended(pc) ==> pc' == pc || pc'.Idle?) && (pc.Idle? ==> !Ended(pc'))
  }

  lemma PushAnswers<T>(s: State<T>, p: Tid, spurious: bool)
    requires Inv(s) && (PcOf(s, p).PushLoadTail? || PcOf(s, p).PushCasTail? || PcOf(s, p).PushWrite?
                        || PcOf(s, p).PushPublish?)
    ensures Answers(s, Next(s, p, Step(spurious)), p)
  {
    assert ThreadInv(s, p);
    hide Slot, BitAnd, CellInv, OwnerInv, ReturnedInv;
  }

  lemma PopAnswers<T>(s: State<T>, p: Tid, spurious: bool)
    requires Inv(s) && (PcOf(s, p).PopLoadHead? || PcOf(s, p).PopCasHead? || PcOf(s, p).PopRead?
                        || PcOf(s, p).PopRelease?)
    ensures Answers(s, Next(s, p, Step(spurious)), p)
  {
    assert ThreadInv(s, p);
    hide Slot, BitAnd, CellInv, OwnerInv, ReturnedInv;
  }

  lemma TestAnswers<T>(s: State<T>, p: Tid, spurious: bool)
    requires Inv(s) && (PcOf(s, p).PushLoadSeq? || PcOf(s, p).PopLoadSeq?)
    ensures Answers(s, Next(s, p, Step(spurious)), p)
  {
    if PcOf(s, p).PushLoadSeq? {
      PushFalseMeaning(s, p, PcOf(s, p).v, PcOf(s, p).t);
    } else {
      PopFalseMeaning(s, p, PcOf(s, p).h);
    }
    hide Slot, BitAnd, Inv;
  }

  lemma EdgeAnswers<T>(s: State<T>, p: Tid, a: Action<T>)
    requires Inv(s) && (!a.Step? || PcOf(s, p).Idle? || Ended(PcOf(s, p)))
    ensures Answers(s, Next(s, p, a), p)
  {
    hide Slot, BitAnd, Inv, PushTest, PopTest, PushCas, PopCas;
  }

  /** Every step of every thread: no call answers before its time, and each answer means what it says. */
  lemma AnswersMean<T>(s: State<T>, p: Tid, a: Action<T>)
    requires Inv(s)
    ensures Answers(s, Next(s, p, a), p)
  {
    hide Inv, Next, Answers;
    var pc := PcOf(s, p);
    if !a.Step? || pc.Idle? || Ended(pc) {
      EdgeAnswers(s, p, a);
    } else if pc.PushLoadSeq? || pc.PopLoadSeq? {
      TestAnswers(s, p, a.spurious);
    } else if pc.PushLoadTail? || pc.PushCasTail? || pc.PushWrite? || pc.PushPublish? {
      PushAnswers(s, p, a.spurious);
    } else {
      PopAnswers(s, p, a.spurious);
    }
  }

  // ----- over whole calls ------------------------------------------------------------------------

  /** The state after the first `k` steps of a run. */
  function After<T>(s: State<T>, t: seq<(Tid, Action<T>)>, k: nat): (s': State<T>)
    requires WellFormed(s) && k <= |t|
    ensures WellFormed(s') && s'.size == s.size
  {
    Run(s, t[..k])
  }

  lemma OneMore<T>(s: State<T>, t: seq<(Tid, Action<T>)>, k: nat)
    requires WellFormed(s) && k < |t|
    ensures After(s, t, k + 1) == Next(After(s, t, k), t[k].0, t[k].1)
  {
    hide Next;
    var last: seq<(Tid, Action<T>)> := [t[k]];
    assert t[..k + 1] == t[..k] + last && last[1..] == [];
    RunAppends(s, t[..k], last);
    assert Run(Next(After(s, t, k), t[k].0, t[k].1), []) == Next(After(s, t, k), t[k].0, t[k].1);
  }

  lemma AfterKeepsInv<T>(s: State<T>, t: seq<(Tid, Action<T>)>, k: nat)
    requires Inv(s) && k <= |t|
    ensures Inv(After(s, t, k))
  {
    RunKeepsInv(s, t[..k]);
    hide Inv, Run;
  }

  /** The tickets from `from` on that thread `p` has won. */
  function Won(winners: seq<Tid>, p: Tid, from: nat): set<nat> {
    set i | from <= i < |winners| && winners[i] == p
  }

  /** A `push` of `v`, with `from` tickets given at its call: it has won none, or one, for `v`. */
  ghost predicate PushSoFar<T>(s: State<T>, p: Tid, v: T, from: nat) {
    var pc, won := PcOf(s, p), Won(s.pushers, p, from);
    && from <= |s.pushers| == |s.pushed|
    && (pc.PushLoadTail? || pc.PushLoadSeq? || pc.PushCasTail? ==> pc.v == v && won == {})
    && (pc.PushWrite? || pc.PushPublish? ==> pc.v == v && won == {pc.t} && pc.t < |s.pushed| && s.pushed[pc.t] == v)
    && (pc == PushEnd(true) ==> exists i: nat :: won == {i} && i < |s.pushed| && s.pushed[i] == v)
    && (pc == PushEnd(false) ==> won == {})
    && (Pushes(pc) || pc.PushEnd?)
  }

  lemma WonGrows(winners: seq<Tid>, q: Tid, p: Tid, from: nat)
    requires from <= |winners|
    ensures Won(winners + [q], p, from) == Won(winners, p, from) + if q == p then {|winners|} else {}
  {
  }

  lemma OtherPushSoFar<T>(s: State<T>, q: Tid, a: Action<T>, p: Tid, v: T, from: nat)
    requires Inv(s) && PushSoFar(s, p, v, from) && q != p
    ensures PushSoFar(Next(s, q, a), p, v, from)
  {
    StepRefinesQueue(s, q, a);
    WonGrows(s.pushers, q, p, from);
    StaysApart(s, q, a);
    hide Next, Inv, ThreadInv, CellInv, OwnerInv, ReturnedInv, Won, Slot, BitAnd;
    var s' := Next(s, q, a);
    assert s'.pushers == s.pushers || s'.pushers == s.pushers + [q];
    if PcOf(s, p) == PushEnd(true) {
      var i: nat :| Won(s.pushers, p, from) == {i} && i < |s.pushed| && s.pushed[i] == v;
      assert Won(s'.pushers, p, from) == {i} && s'.pushed[i] == v;
    }
  }

  lemma OwnPushSoFar<T>(s: State<T>, p: Tid, a: Action<T>, v: T, from: nat)
    requires Inv(s) && PushSoFar(s, p, v, from) && !PcOf(Next(s, p, a), p).Idle?
    ensures PushSoFar(Next(s, p, a), p, v, from)
  {
    StepRefinesQueue(s, p, a);
    WonGrows(s.pushers, p, p, from);
    AnswersMean(s, p, a);
    if Pushes(PcOf(s, p)) { PushPcs(s, p, a); }
    hide Next, Inv, ThreadInv, CellInv, OwnerInv, ReturnedInv, Won, Slot, BitAnd, MayRefuse, MayMiss;
    var s' := Next(s, p, a);
    assert s'.pushers == s.pushers || s'.pushers == s.pushers + [p];
    if PcOf(s', p) == PushEnd(true) && PcOf(s, p).PushPublish? {
      assert Won(s'.pushers, p, from) == {PcOf(s, p).t} && s'.pushed[PcOf(s, p).t] == v;
    }
  }

  /** After a ticket is won, the cell is filled and published under it. */
  lemma PushPcs<T>(s: State<T>, p: Tid, a: Action<T>)
    requires WellFormed(s) && Pushes(PcOf(s, p))
    ensures var pc, pc' := PcOf(s, p), PcOf(Next(s, p, a), p);
      && (pc.PushWrite? || pc.PushPublish? ==>
            pc' == pc || pc' == PushPublish(pc.v, pc.t) || (pc.PushPublish? && pc' == PushEnd(true)))
      && (pc'.PushWrite? ==> pc' == pc || pc.PushCasTail?)
      && (pc'.PushPublish? ==> pc.PushWrite? || pc.PushPublish?)
  {
    hide Slot, BitAnd;
  }

  lemma {:induction false} PushGoesOn<T>(s: State<T>, t: seq<(Tid, Action<T>)>, p: Tid, v: T, i: nat, k: nat)
    requires WellFormed(s) && Inv(s) && i < k <= |t| && t[i] == (p, CallPush(v)) && PcOf(After(s, t, i), p).Idle?
    requires forall j: nat :: i < j <= k ==> !PcOf(After(s, t, j), p).Idle?
    ensures PushSoFar(After(s, t, k), p, v, |After(s, t, i).pushers|)
    decreases k
  {
    hide After, Next, Inv, PushSoFar;
    AfterKeepsInv(s, t, k - 1);
    OneMore(s, t, k - 1);
    var before := After(s, t, k - 1);
    if k - 1 == i {
      PushStarts(before, p, v);
    } else {
      PushGoesOn(s, t, p, v, i, k - 1);
      if t[k - 1].0 == p {
        OwnPushSoFar(before, p, t[k - 1].1, v, |After(s, t, i).pushers|);
      } else {
        OtherPushSoFar(before, t[k - 1].0, t[k - 1].1, p, v, |After(s, t, i).pushers|);
      }
    }
  }

  lemma PushStarts<T>(s: State<T>, p: Tid, v: T)
    requires Inv(s) && PcOf(s, p).Idle?
    ensures PushSoFar(Next(s, p, CallPush(v)), p, v, |s.pushers|)
  {
    assert Won(s.pushers, p, |s.pushers|) == {};
    hide CellInv, OwnerInv, ThreadInv, ReturnedInv, Slot, BitAnd;
  }

  /**
    A whole `push`, in any run: when it is about to answer true it has put its value in exactly once,
    under one ticket; when it is about to answer false it has put nothing in.
   */
  lemma PushTakesEffectOnce<T>(size: nat, blank: T, t: seq<(Tid, Action<T>)>, p: Tid, v: T, i: nat, k: nat)
    requires ValidSize(size) && size >= 2 && i < k <= |t| && t[i] == (p, CallPush(v))
    requires PcOf(After(Init(size, blank), t, i), p).Idle?
    requires forall j: nat :: i < j <= k ==> !PcOf(After(Init(size, blank), t, j), p).Idle?
    requires PcOf(After(Init(size, blank), t, k), p).PushEnd?
    ensures var s, won := After(Init(size, blank), t, k),
        Won(After(Init(size, blank), t, k).pushers, p, |After(Init(size, blank), t, i).pushers|);
      if PcOf(s, p).ok then exists x: nat :: won == {x} && x < |s.pushed| && s.pushed[x] == v else won == {}
  {
    InitInv(size, blank);
    PushGoesOn(Init(size, blank), t, p, v, i, k);
    hide Inv, Init, After, Next, Won;
  }

  /** A `pop`: it has won no head ticket, or one, whose value it takes. */
  ghost predicate PopSoFar<T>(s: State<T>, p: Tid, from: nat) {
    var pc, won := PcOf(s, p), Won(s.poppers, p, from);
    && from <= |s.poppers| == s.head
    && (pc.PopLoadHead? || pc.PopLoadSeq? || pc.PopCasHead? ==> won == {})
    && (pc.PopRead? || pc.PopRelease? ==> won == {pc.h})
    && (pc.PopEnd? && pc.result.Some? ==>
          exists i: nat :: won == {i} && i < |s.pushed| && s.pushed[i] == pc.result.value)
    && (pc == PopEnd(None) ==> won == {})
    && (Pops(pc) || pc.PopEnd?)
  }

  lemma OtherPopSoFar<T>(s: State<T>, q: Tid, a: Action<T>, p: Tid, from: nat)
    requires Inv(s) && PopSoFar(s, p, from) && q != p
    ensures PopSoFar(Next(s, q, a), p, from)
  {
    StepRefinesQueue(s, q, a);
    WonGrows(s.poppers, q, p, from);
    StaysApart(s, q, a);
    hide Next, ThreadInv, CellInv, OwnerInv, ReturnedInv, Won, Slot, BitAnd;
    var s' := Next(s, q, a);
    assert s'.poppers == s.poppers || s'.poppers == s.poppers + [q];
    if PcOf(s, p).PopEnd? && PcOf(s, p).result.Some? {
      var i: nat :| Won(s.poppers, p, from) == {i} && i < |s.pushed| && s.pushed[i] == PcOf(s, p).result.value;
      assert Won(s'.poppers, p, from) == {i} && s'.pushed[i] == PcOf(s, p).result.value;
    }
  }

  lemma PopPcs<T>(s: State<T>, p: Tid, a: Action<T>)
    requires WellFormed(s) && Pops(PcOf(s, p))
    ensures var pc, pc' := PcOf(s, p), PcOf(Next(s, p, a), p);
      && (pc.PopRead? ==> pc' == pc || (pc'.PopRelease? && pc'.h == pc.h))
      && (pc.PopRelease? ==> pc' == pc || pc' == PopEnd(Some(pc.r)))
      && (pc'.PopRead? ==> pc' == pc || pc.PopCasHead?)
      && (pc'.PopRelease? ==> pc.PopRead? || pc.PopRelease?)
  {
    hide Slot, BitAnd;
  }

  lemma OwnPopSoFar<T>(s: State<T>, p: Tid, a: Action<T>, from: nat)
    requires Inv(s) && PopSoFar(s, p, from) && !PcOf(Next(s, p, a), p).Idle?
    ensures PopSoFar(Next(s, p, a), p, from)
  {
    StepRefinesQueue(s, p, a);
    WonGrows(s.poppers, p, p, from);
    AnswersMean(s, p, a);
    if Pops(PcOf(s, p)) { PopPcs(s, p, a); }
    hide Next, ThreadInv, CellInv, OwnerInv, ReturnedInv, Won, Slot, BitAnd, MayRefuse, MayMiss;
    var s' := Next(s, p, a);
    assert s'.poppers == s.poppers || s'.poppers == s.poppers + [p];
    if PcOf(s', p).PopEnd? && PcOf(s', p).result.Some? && PcOf(s, p).PopRelease? {
      assert Won(s'.poppers, p, from) == {PcOf(s, p).h} && s'.pushed[PcOf(s, p).h] == PcOf(s', p).result.value;
    }
  }

  lemma PopStarts<T>(s: State<T>, p: Tid)
    requires Inv(s) && PcOf(s, p).Idle?
    ensures PopSoFar(Next(s, p, CallPop), p, |s.poppers|)
  {
    assert Won(s.poppers, p, |s.poppers|) == {};
    hide CellInv, OwnerInv, ThreadInv, ReturnedInv, Slot, BitAnd;
  }

  lemma {:induction false} PopGoesOn<T>(s: State<T>, t: seq<(Tid, Action<T>)>, p: Tid, i: nat, k: nat)
    requires WellFormed(s) && Inv(s) && i < k <= |t| && t[i] == (p, CallPop) && PcOf(After(s, t, i), p).Idle?
    requires forall j: nat :: i < j <= k ==> !PcOf(After(s, t, j), p).Idle?
    ensures PopSoFar(After(s, t, k), p, |After(s, t, i).poppers|)
    decreases k
  {
    hide After, Next, Inv, PopSoFar;
    AfterKeepsInv(s, t, k - 1);
    OneMore(s, t, k - 1);
    var before := After(s, t, k - 1);
    if k - 1 == i {
      PopStarts(before, p);
    } else {
      PopGoesOn(s, t, p, i, k - 1);
      if t[k - 1].0 == p {
        OwnPopSoFar(before, p, t[k - 1].1, |After(s, t, i).poppers|);
      } else {
        OtherPopSoFar(before, t[k - 1].0, t[k - 1].1, p, |After(s, t, i).poppers|);
      }
    }
  }

  /**
    A whole `pop`, in any run: when it is about to answer with a value it has taken exactly one ticket,
    and the value is the one pushed under it; when it is about to answer false it has taken nothing.
   */
  lemma PopTakesEffectOnce<T>(size: nat, blank: T, t: seq<(Tid, Action<T>)>, p: Tid, i: nat, k: nat)
    requires ValidSize(size) && size >= 2 && i < k <= |t| && t[i] == (p, CallPop)
    requires PcOf(After(Init(size, blank), t, i), p).Idle?
    requires forall j: nat :: i < j <= k ==> !PcOf(After(Init(size, blank), t, j), p).Idle?
    requires PcOf(After(Init(size, blank), t, k), p).PopEnd?
    ensures var s, won := After(Init(size, blank), t, k),
        Won(After(Init(size, blank), t, k).poppers, p, |After(Init(size, blank), t, i).poppers|);
      match PcOf(s, p).result
      case Some(r) => exists x: nat :: won == {x} && x < |s.pushed| && s.pushed[x] == r
      case None => won == {}
  {
    InitInv(size, blank);
    PopGoesOn(Init(size, blank), t, p, i, k);
    hide Inv, Init, After, Next, Won;
  }

  // ----- calls left alone ------------------------------------------------------------------------------

  /** `p` alone goes on until its call answers; `spurious` says which of its exchanges fail spuriously. */
  function Solo<T>(s: State<T>, p: Tid, spurious: seq<bool>): (s': State<T>)
    requires WellFormed(s)
    ensures WellFormed(s') && s'.size == s.size
    decreases |spurious|
  {
    if spurious == [] || Ended(PcOf(s, p)) then s else Solo(Next(s, p, Step(spurious[0])), p, spurious[1..])
  }

  /** No other thread is between winning a ticket and publishing or releasing its cell. */
  ghost predicate Undisturbed<T>(s: State<T>, p: Tid) {
    forall q: Tid :: q != p ==> !Owning(PcOf(s, q))
  }

  /** What the push comes to, wherever it is: its answer, and the queue afterwards. */
  function PushOutcome<T>(s: State<T>, p: Tid): (bool, seq<T>)
    requires CountersInv(s)
  {
    var pc := PcOf(s, p);
    if pc.PushEnd? then (pc.ok, Abs(s))
    else if pc.PushLoadTail? || pc.PushLoadSeq? || pc.PushCasTail? then
      if |Abs(s)| < s.size then (true, Abs(s) + [pc.v]) else (false, Abs(s))
    else (true, Abs(s))
  }

  /** The most steps before it answers, if no exchange fails spuriously. */
  function PushRank<T>(s: State<T>, p: Tid): nat {
    match PcOf(s, p)
    case PushLoadSeq(_, t) => if t == s.tail then 4 else 6
    case PushLoadTail(_) => 5
    case PushCasTail(_, t) => if t == s.tail then 3 else 5
    case PushWrite(_, _) => 2
    case PushPublish(_, _) => 1
    case _ => 0
  }

  ghost predicate PushNears<T>(s: State<T>, s': State<T>, p: Tid, spurious: bool)
    requires CountersInv(s)
  {
    && CountersInv(s') && Undisturbed(s', p) && (Pushes(PcOf(s', p)) || PcOf(s', p).PushEnd?)
    && PushOutcome(s', p) == PushOutcome(s, p) && (spurious || PushRank(s', p) < PushRank(s, p))
  }

  lemma PushTestNears<T>(s: State<T>, p: Tid, spurious: bool)
    requires Inv(s) && Undisturbed(s, p) && PcOf(s, p).PushLoadSeq?
    ensures PushNears(s, Next(s, p, Step(spurious)), p, spurious)
  {
    var v, t := PcOf(s, p).v, PcOf(s, p).t;
    assert ThreadInv(s, p);
    PushFalseMeaning(s, p, v, t);
    if t < s.tail { StaleNotFree(s, p, t); }
    StaysApart(s, p, Step(spurious));
    hide Slot, BitAnd, CellInv, OwnerInv, ThreadInv, ReturnedInv;
  }

  /** A cell that still awaits the push of a past ticket is claimed for it. */
  lemma StaleNotFree<T>(s: State<T>, p: Tid, t: nat)
    requires Inv(s) && Undisturbed(s, p) && !Owning(PcOf(s, p)) && t < s.tail
    ensures CellOf(s, t).sequence != t
  {
    CellBounds(s, t);
    assert CellInv(s, Slot(t, s.size)) && OwnerInv(s, Slot(t, s.size));
  }

  lemma PushCasNears<T>(s: State<T>, p: Tid, spurious: bool)
    requires Inv(s) && Undisturbed(s, p) && PcOf(s, p).PushCasTail?
    ensures PushNears(s, Next(s, p, Step(spurious)), p, spurious)
  {
    StepRefinesQueue(s, p, Step(spurious));
    StaysApart(s, p, Step(spurious));
    if PcOf(s, p).t == s.tail { PushWins(s, p, PcOf(s, p).v, PcOf(s, p).t); }
    assert ThreadInv(s, p);
    hide Slot, BitAnd, CellInv, OwnerInv, ThreadInv, ReturnedInv;
  }

  lemma PushPlainNears<T>(s: State<T>, p: Tid, spurious: bool)
    requires Inv(s) && Undisturbed(s, p)
    requires PcOf(s, p).PushLoadTail? || PcOf(s, p).PushWrite? || PcOf(s, p).PushPublish?
    ensures PushNears(s, Next(s, p, Step(spurious)), p, spurious)
  {
    StaysApart(s, p, Step(spurious));
    hide Slot, BitAnd, CellInv, OwnerInv, ThreadInv, ReturnedInv;
  }

  lemma SoloPushStep<T>(s: State<T>, p: Tid, spurious: bool)
    requires Inv(s) && Undisturbed(s, p) && Pushes(PcOf(s, p))
    ensures Inv(Next(s, p, Step(spurious))) && PushNears(s, Next(s, p, Step(spurious)), p, spurious)
  {
    hide Inv, Next, PushNears, Undisturbed;
    NextKeepsInv(s, p, Step(spurious));
    if PcOf(s, p).PushLoadSeq? {
      PushTestNears(s, p, spurious);
    } else if PcOf(s, p).PushCasTail? {
      PushCasNears(s, p, spurious);
    } else {
      PushPlainNears(s, p, spurious);
    }
  }

  /**
    A `push` that is left alone, wherever it is and however many of its exchanges have failed or go on
    to fail spuriously, answers: true with its value at the back if there was room, else false.
   */
  lemma {:induction false} LonePush<T>(s: State<T>, p: Tid, spurious: seq<bool>, n: nat)
    requires WellFormed(s) && Inv(s) && Undisturbed(s, p) && (Pushes(PcOf(s, p)) || PcOf(s, p).PushEnd?)
    requires CountersInv(s) && Steady(spurious, n) && (n >= 6 || |spurious| == n >= PushRank(s, p))
    ensures var s' := Solo(s, p, spurious);
      Inv(s') && CountersInv(s') && PcOf(s', p).PushEnd? && (PcOf(s', p).ok, Abs(s')) == PushOutcome(s, p)
    decreases |spurious|
  {
    hide Inv, Next, CountersInv, Undisturbed, PushOutcome, PushRank, Abs;
    PushBounds(s, p);
    if Pushes(PcOf(s, p)) {
      SoloPushStep(s, p, spurious[0]);
      StillSteady(spurious, n);
      LonePush(Next(s, p, Step(spurious[0])), p, spurious[1..], if |spurious| > n then n else n - 1);
    }
  }

  lemma PushBounds<T>(s: State<T>, p: Tid)
    requires CountersInv(s)
    ensures PushRank(s, p) <= 6 && (Pushes(PcOf(s, p)) ==> PushRank(s, p) > 0)
    ensures PcOf(s, p).PushEnd? ==> PushOutcome(s, p) == (PcOf(s, p).ok, Abs(s))
  {
  }

  /** What a pop comes to, wherever it is: its answer, and the queue afterwards. */
  function PopOutcome<T>(s: State<T>, p: Tid): (Option<T>, seq<T>)
    requires CountersInv(s)
  {
    var pc := PcOf(s, p);
    if pc.PopEnd? then (pc.result, Abs(s))
    else if pc.PopRead? || pc.PopRelease? then (if pc.h < |s.pushed| then Some(s.pushed[pc.h]) else None, Abs(s))
    else if Abs(s) == [] then (None, [])
    else (Some(Abs(s)[0]), Abs(s)[1..])
  }

  function PopRank<T>(s: State<T>, p: Tid): nat {
    match PcOf(s, p)
    case PopLoadSeq(h) => if h == s.head then 4 else 6
    case PopLoadHead => 5
    case PopCasHead(h) => if h == s.head then 3 else 5
    case PopRead(_) => 2
    case PopRelease(_, _) => 1
    case _ => 0
  }

  ghost predicate PopNears<T>(s: State<T>, s': State<T>, p: Tid, spurious: bool)
    requires CountersInv(s)
  {
    && CountersInv(s') && Undisturbed(s', p) && (Pops(PcOf(s', p)) || PcOf(s', p).PopEnd?)
    && PopOutcome(s', p) == PopOutcome(s, p) && (spurious || PopRank(s', p) < PopRank(s, p))
  }

  /** A cell that still holds the value of a past head ticket is claimed by its pop. */
  lemma StaleNotFull<T>(s: State<T>, p: Tid, h: nat)
    requires Inv(s) && Undisturbed(s, p) && !Owning(PcOf(s, p)) && h < s.head
    ensures CellOf(s, h).sequence != h + 1
  {
    CellBounds(s, h);
    assert CellInv(s, Slot(h, s.size)) && OwnerInv(s, Slot(h, s.size));
  }

  lemma PopTestNears<T>(s: State<T>, p: Tid, spurious: bool)
    requires Inv(s) && Undisturbed(s, p) && PcOf(s, p).PopLoadSeq?
    ensures PopNears(s, Next(s, p, Step(spurious)), p, spurious)
  {
    var h := PcOf(s, p).h;
    assert ThreadInv(s, p);
    PopFalseMeaning(s, p, h);
    if h < s.head { StaleNotFull(s, p, h); }
    StaysApart(s, p, Step(spurious));
    hide Slot, BitAnd, CellInv, OwnerInv, ThreadInv, ReturnedInv;
  }

  lemma PopCasNears<T>(s: State<T>, p: Tid, spurious: bool)
    requires Inv(s) && Undisturbed(s, p) && PcOf(s, p).PopCasHead?
    ensures PopNears(s, Next(s, p, Step(spurious)), p, spurious)
  {
    StepRefinesQueue(s, p, Step(spurious));
    StaysApart(s, p, Step(spurious));
    if PcOf(s, p).h == s.head { PopWins(s, p, PcOf(s, p).h); }
    assert ThreadInv(s, p);
    hide Slot, BitAnd, CellInv, OwnerInv, ThreadInv, ReturnedInv;
  }

  lemma PopPlainNears<T>(s: State<T>, p: Tid, spurious: bool)
    requires Inv(s) && Undisturbed(s, p)
    requires PcOf(s, p).PopLoadHead? || PcOf(s, p).PopRead? || PcOf(s, p).PopRelease?
    ensures PopNears(s, Next(s, p, Step(spurious)), p, spurious)
  {
    StaysApart(s, p, Step(spurious));
    assert ThreadInv(s, p);
    hide Slot, BitAnd, CellInv, OwnerInv, ReturnedInv;
  }

  lemma SoloPopStep<T>(s: State<T>, p: Tid, spurious: bool)
    requires Inv(s) && Undisturbed(s, p) && Pops(PcOf(s, p))
    ensures Inv(Next(s, p, Step(spurious))) && PopNears(s, Next(s, p, Step(spurious)), p, spurious)
  {
    hide Inv, Next, PopNears, Undisturbed;
    NextKeepsInv(s, p, Step(spurious));
    if PcOf(s, p).PopLoadSeq? {
      PopTestNears(s, p, spurious);
    } else if PcOf(s, p).PopCasHead? {
      PopCasNears(s, p, spurious);
    } else {
      PopPlainNears(s, p, spurious);
    }
  }

  /** The same for a `pop`: it answers with the first value, or false if there is none. */
  lemma {:induction false} LonePop<T>(s: State<T>, p: Tid, spurious: seq<bool>, n: nat)
    requires WellFormed(s) && Inv(s) && Undisturbed(s, p) && (Pops(PcOf(s, p)) || PcOf(s, p).PopEnd?)
    requires CountersInv(s) && Steady(spurious, n) && (n >= 6 || |spurious| == n >= PopRank(s, p))
    ensures var s' := Solo(s, p, spurious);
      Inv(s') && CountersInv(s') && PcOf(s', p).PopEnd? && (PcOf(s', p).result, Abs(s')) == PopOutcome(s, p)
    decreases |spurious|
  {
    hide Inv, Next, CountersInv, Undisturbed, PopOutcome, PopRank, Abs;
    PopBounds(s, p);
    if Pops(PcOf(s, p)) {
      SoloPopStep(s, p, spurious[0]);
      StillSteady(spurious, n);
      LonePop(Next(s, p, Step(spurious[0])), p, spurious[1..], if |spurious| > n then n else n - 1);
    }
  }

  lemma PopBounds<T>(s: State<T>, p: Tid)
    requires CountersInv(s)
    ensures PopRank(s, p) <= 6 && (Pops(PcOf(s, p)) ==> PopRank(s, p) > 0)
    ensures PcOf(s, p).PopEnd? ==> PopOutcome(s, p) == (PcOf(s, p).result, Abs(s))
  {
  }

  /** Whole calls left alone: whatever fails spuriously before the last six attempts, they answer as a queue does. */
  lemma LoneCalls<T>(s: State<T>, p: Tid, v: T, spurious: seq<bool>)
    requires WellFormed(s) && Inv(s) && CountersInv(s) && Undisturbed(s, p) && PcOf(s, p).Idle? && Steady(spurious, 6)
    ensures var s' := Solo(Next(s, p, CallPush(v)), p, spurious);
      && CountersInv(s') && PcOf(s', p) == PushEnd(|Abs(s)| < s.size)
      && Abs(s') == if |Abs(s)| < s.size then Abs(s) + [v] else Abs(s)
    ensures var s' := Solo(Next(s, p, CallPop), p, spurious);
      && CountersInv(s') && PcOf(s', p) == PopEnd(if Abs(s) == [] then None else Some(Abs(s)[0]))
      && Abs(s') == if Abs(s) == [] then [] else Abs(s)[1..]
  {
    hide Next, Steady, Inv, Undisturbed;
    NextKeepsInv(s, p, CallPush(v));
    NextKeepsInv(s, p, CallPop);
    CallsLeave(s, p, v);
    LonePush(Next(s, p, CallPush(v)), p, spurious, 6);
    LonePop(Next(s, p, CallPop), p, spurious, 6);
  }

  lemma CallsLeave<T>(s: State<T>, p: Tid, v: T)
    requires WellFormed(s) && CountersInv(s) && Undisturbed(s, p) && PcOf(s, p).Idle?
    ensures var s' := Next(s, p, CallPush(v));
      PcOf(s', p) == PushLoadTail(v) && CountersInv(s') && Abs(s') == Abs(s) && Undisturbed(s', p)
    ensures var s' := Next(s, p, CallPop);
      PcOf(s', p) == PopLoadHead && CountersInv(s') && Abs(s') == Abs(s) && Undisturbed(s', p)
  {
    StaysApart(s, p, CallPush(v));
    StaysApart(s, p, CallPop);
    hide Slot, BitAnd;
  }
}
