/**
  `TU_FiniteOverflowQueue` under concurrency: the bounded ring and the linked queue, each access
  of either a step, put together as `push` and `pop` do it.  Every interleaving is a bag: a push
  adds its value once, a pop takes a value once or answers false; and a pop that answers false
  has an excuse.
 */
module OverflowRuns {
  import opened Common
  import opened RingIndex
  import Ring = BoundedRing
  import List = LinkedQueue

  /** Which part a call is at; a push keeps its value. */
  datatype Pc<T> = Idle | RingPush(v: T) | ListPush(v: T) | RingPop | ListPop

  /** `excused` is history: the pops that may answer false, see `MayMiss`. */
  datatype State<T> = State(ring: Ring.State<T>, list: List.State<T>, pcs: map<Tid, Pc<T>>, excused: set<Tid>)

  datatype Action<T> = CallPush(v: T) | CallPop | Step(spurious: bool)

  function PcOf<T>(s: State<T>, p: Tid): Pc<T> { if p in s.pcs then s.pcs[p] else Idle }

  function Goto<T>(s: State<T>, p: Tid, pc: Pc<T>): State<T> { s.(pcs := s.pcs[p := pc]) }

  predicate WellFormed<T>(s: State<T>) { Ring.WellFormed(s.ring) }

  function Init<T>(size: nat, blank: T): (s: State<T>)
    requires ValidSize(size)
    ensures WellFormed(s)
  {
    State(Ring.Init(size, blank), List.Init(blank), map[], {})
  }

  function Move<T>(s: State<T>, p: Tid, a: Action<T>): (s': State<T>)
    requires WellFormed(s)
    ensures WellFormed(s')
  {
    match a
    case CallPush(v) =>
      if PcOf(s, p).Idle? then Goto(s, p, RingPush(v)).(ring := Ring.Next(s.ring, p, Ring.CallPush(v))) else s
    case CallPop =>
      if PcOf(s, p).Idle? then Goto(s, p, RingPop).(ring := Ring.Next(s.ring, p, Ring.CallPop)) else s
    case Step(spurious) =>
      match PcOf(s, p)
      case Idle => s
      case RingPush(v) => RingPushMove(s, p, v, spurious)
      case ListPush(v) => ListMove(s, p, List.PcOf(s.list, p).PushEnd?, spurious)
      case RingPop => RingPopMove(s, p, spurious)
      case ListPop => ListMove(s, p, List.PcOf(s.list, p).PopEnd?, spurious)
  }

  function RingMove<T>(s: State<T>, p: Tid, spurious: bool): (s': State<T>)
    requires WellFormed(s)
    ensures WellFormed(s')
  {
    s.(ring := Ring.Next(s.ring, p, Ring.Step(spurious)))
  }

  /** `push`: what the ring refuses goes to the overflow queue. */
  function RingPushMove<T>(s: State<T>, p: Tid, v: T, spurious: bool): (s': State<T>)
    requires WellFormed(s)
    ensures WellFormed(s')
  {
    var pc, s1 := Ring.PcOf(s.ring, p), RingMove(s, p, spurious);
    if !pc.PushEnd? then s1
    else if pc.ok then Goto(s1, p, Idle)
    else Goto(s1, p, ListPush(v)).(list := List.Next(s.list, p, List.CallPush(v)))
  }

  /** `pop`: a miss in the ring goes on to the overflow queue. */
  function RingPopMove<T>(s: State<T>, p: Tid, spurious: bool): (s': State<T>)
    requires WellFormed(s)
    ensures WellFormed(s')
  {
    var pc, s1 := Ring.PcOf(s.ring, p), RingMove(s, p, spurious);
    if !pc.PopEnd? then s1
    else if pc.result.Some? then Goto(s1, p, Idle)
    else Goto(s1, p, ListPop).(list := List.Next(s.list, p, List.CallPop))
  }

  function ListMove<T>(s: State<T>, p: Tid, last: bool, spurious: bool): State<T> {
    var s1 := s.(list := List.Next(s.list, p, List.Step(spurious)));
    if last then Goto(s1, p, Idle) else s1
  }

  // ----- the bag ---------------------------------------------------------------------------------

  /** How far a call has got, as a client of a bag sees it. */
  datatype Stage<T> = Outside | Pushing(v: T) | Pushed | Refused | Popping | Took(r: T) | Missed

  function RingStage<T>(s: Ring.State<T>, p: Tid): Stage<T> {
    match Ring.PcOf(s, p)
    case Idle => Outside
    case PushLoadTail(v) => Pushing(v)
    case PushLoadSeq(v, _) => Pushing(v)
    case PushCasTail(v, _) => Pushing(v)
    case PushEnd(false) => Refused
    case PopRead(h) => if h < |s.pushed| then Took(s.pushed[h]) else Popping
    case PopRelease(_, r) => Took(r)
    case PopEnd(Some(r)) => Took(r)
    case PopEnd(None) => Missed
    case PopLoadHead => Popping
    case PopLoadSeq(_) => Popping
    case PopCasHead(_) => Popping
    case _ => Pushed
  }

  function ListStage<T>(s: List.State<T>, p: Tid): Stage<T> {
    var pc := List.PcOf(s, p);
    if pc.PushAlloc? || List.Making(pc) then Pushing(pc.v)
    else if List.Freeing(pc) then Took(pc.r)
    else
      match pc
      case Idle => Outside
      case PushSwing(_, _) => Pushed
      case PushEnd => Pushed
      case PopEnd(Some(r)) => Took(r)
      case PopEnd(None) => Missed
      case _ => Popping
  }

  /** A refusal or a miss of the ring is not the end of the call. */
  function StageOf<T>(s: State<T>, p: Tid): Stage<T> {
    match PcOf(s, p)
    case Idle => Outside
    case RingPush(v) => if RingStage(s.ring, p).Refused? then Pushing(v) else RingStage(s.ring, p)
    case ListPush(_) => ListStage(s.list, p)
    case RingPop => if RingStage(s.ring, p).Missed? then Popping else RingStage(s.ring, p)
    case ListPop => ListStage(s.list, p)
  }

  ghost function RingBag<T>(s: Ring.State<T>): multiset<T>
    requires Ring.CountersInv(s)
  {
    multiset(Ring.Abs(s))
  }

  ghost function ListBag<T>(s: List.State<T>): multiset<T> { multiset(List.Abs(s)) }

  /** Steps of a client that leave the bag alone. */
  ghost predicate IsQuiet<T>(st: Stage<T>, st': Stage<T>) {
    match st
    case Outside => st'.Outside? || st'.Pushing? || st'.Popping?
    case Pushing(v) => st' == Pushing(v) || st'.Refused?
    case Popping => st'.Popping? || st'.Missed?
    case _ => st' == st || st'.Outside?
  }

  /** What one step of a client does to a bag. */
  ghost predicate BagStep<T>(st: Stage<T>, st': Stage<T>, b: multiset<T>, b': multiset<T>) {
    if st.Pushing? && st'.Pushed? then b' == b + multiset{st.v}
    else if st.Popping? && st'.Took? then b == b' + multiset{st'.r}
    else b' == b && IsQuiet(st, st')
  }

  lemma FirstLeaves<T>(q: seq<T>)
    requires q != []
    ensures multiset(q) == multiset(q[1..]) + multiset{q[0]}
  {
    assert q == [q[0]] + q[1..];
  }

  predicate PushesRing<T>(pc: Ring.Pc<T>) {
    pc.PushLoadTail? || pc.PushLoadSeq? || pc.PushCasTail? || pc.PushWrite? || pc.PushPublish? || pc.PushEnd?
  }

  lemma RingPushStages<T>(s: Ring.State<T>, p: Tid, spurious: bool)
    requires Ring.WellFormed(s) && PushesRing(Ring.PcOf(s, p))
    ensures var s' := Ring.Next(s, p, Ring.Step(spurious)); var pc, pc' := Ring.PcOf(s, p), Ring.PcOf(s', p);
      && (RingStage(s', p).Outside? <==> pc.PushEnd?)
      && if pc.PushCasTail? && pc'.PushWrite? then RingStage(s, p) == Pushing(pc.v) && RingStage(s', p).Pushed?
         else IsQuiet(RingStage(s, p), RingStage(s', p)) && !pc'.PopRead?
  {
    hide Slot, BitAnd;
  }

  /** Before a pop has won a ticket. */
  predicate SeeksTicket<T>(pc: Ring.Pc<T>) { pc.PopLoadHead? || pc.PopLoadSeq? || pc.PopCasHead? }

  lemma RingSeekStages<T>(s: Ring.State<T>, p: Tid, spurious: bool)
    requires Ring.WellFormed(s) && SeeksTicket(Ring.PcOf(s, p))
    ensures var s' := Ring.Next(s, p, Ring.Step(spurious)); var pc, pc' := Ring.PcOf(s, p), Ring.PcOf(s', p);
      && s'.pushed == s.pushed
      && ((pc.PopCasHead? && pc'.PopRead?) || IsQuiet(RingStage(s, p), RingStage(s', p)))
  {
    hide Slot, BitAnd;
  }

  lemma RingTakeStages<T>(s: Ring.State<T>, p: Tid, spurious: bool)
    requires Ring.WellFormed(s) && Ring.CountersInv(s) && Ring.ThreadInv(s, p)
    requires !PushesRing(Ring.PcOf(s, p)) && !SeeksTicket(Ring.PcOf(s, p))
    requires Ring.PcOf(s, p).PopRead? ==> Ring.CellOf(s, Ring.PcOf(s, p).h).data == s.pushed[Ring.PcOf(s, p).h]
    ensures var s' := Ring.Next(s, p, Ring.Step(spurious));
      s'.pushed == s.pushed && IsQuiet(RingStage(s, p), RingStage(s', p))
  {
    hide Slot, BitAnd, Ring.PushTest, Ring.PopTest, Ring.PushCas, Ring.PopCas;
  }

  lemma RingPopStages<T>(s: Ring.State<T>, p: Tid, spurious: bool)
    requires Ring.WellFormed(s) && Ring.CountersInv(s) && Ring.ThreadInv(s, p) && !PushesRing(Ring.PcOf(s, p))
    requires Ring.PcOf(s, p).PopRead? ==> Ring.CellOf(s, Ring.PcOf(s, p).h).data == s.pushed[Ring.PcOf(s, p).h]
    ensures var s' := Ring.Next(s, p, Ring.Step(spurious)); var pc, pc' := Ring.PcOf(s, p), Ring.PcOf(s', p);
      && s'.pushed == s.pushed && !pc.PushCasTail?
      && if pc.PopCasHead? && pc'.PopRead? then RingStage(s, p).Popping?
         else IsQuiet(RingStage(s, p), RingStage(s', p))
  {
    hide Ring.Next, IsQuiet, Ring.ThreadInv, Ring.CellOf;
    if SeeksTicket(Ring.PcOf(s, p)) {
      RingSeekStages(s, p, spurious);
    } else {
      RingTakeStages(s, p, spurious);
    }
  }

  lemma RingCallStages<T>(s: Ring.State<T>, p: Tid, a: Ring.Action<T>)
    requires Ring.WellFormed(s) && !a.Step?
    ensures var s' := Ring.Next(s, p, a); var pc, pc' := Ring.PcOf(s, p), Ring.PcOf(s', p);
      && IsQuiet(RingStage(s, p), RingStage(s', p)) && s'.pushed == s.pushed
      && !(pc.PushCasTail? && pc'.PushWrite?) && !(pc.PopCasHead? && pc'.PopRead?)
  {
    hide Slot, BitAnd;
  }

  lemma HandedOut<T>(s: Ring.State<T>, p: Tid)
    requires Ring.Inv(s) && Ring.PcOf(s, p).PopRead?
    ensures var h := Ring.PcOf(s, p).h; h < |s.pushed| && Ring.CellOf(s, h).data == s.pushed[h]
  {
    assert Ring.ThreadInv(s, p) && Ring.CellInv(s, Slot(Ring.PcOf(s, p).h, s.size));
    hide Slot, BitAnd;
  }

  lemma RingStages<T>(s: Ring.State<T>, p: Tid, a: Ring.Action<T>)
    requires Ring.Inv(s)
    ensures var s' := Ring.Next(s, p, a); var pc, pc' := Ring.PcOf(s, p), Ring.PcOf(s', p);
      if pc.PushCasTail? && pc'.PushWrite? then RingStage(s, p) == Pushing(pc.v) && RingStage(s', p).Pushed?
      else if pc.PopCasHead? && pc'.PopRead? then RingStage(s, p).Popping? && s'.pushed == s.pushed
      else IsQuiet(RingStage(s, p), RingStage(s', p))
  {
    assert Ring.ThreadInv(s, p);
    hide Slot, BitAnd, Ring.Next, RingStage, IsQuiet, Ring.CellInv, Ring.OwnerInv, Ring.ReturnedInv, Ring.ThreadInv;
    if !a.Step? {
      RingCallStages(s, p, a);
    } else if PushesRing(Ring.PcOf(s, p)) {
      RingPushStages(s, p, a.spurious);
    } else {
      if Ring.PcOf(s, p).PopRead? { HandedOut(s, p); }
      RingPopStages(s, p, a.spurious);
    }
  }

  lemma RingBagFollows<T>(s: Ring.State<T>, s': Ring.State<T>, p: Tid)
    requires Ring.CountersInv(s) && Ring.CountersInv(s') && s.pushed <= s'.pushed && Ring.Refines(s, p, s')
    ensures var pc, pc' := Ring.PcOf(s, p), Ring.PcOf(s', p);
      if pc.PushCasTail? && pc'.PushWrite? then RingBag(s') == RingBag(s) + multiset{pc.v}
      else if pc.PopCasHead? && pc'.PopRead? then
        pc'.h < |s'.pushed| && RingBag(s) == RingBag(s') + multiset{s'.pushed[pc'.h]}
      else RingBag(s') == RingBag(s)
  {
    if Ring.Abs(s) != [] {
      FirstLeaves(Ring.Abs(s));
    }
  }

  lemma RingIsBag<T>(s: Ring.State<T>, p: Tid, a: Ring.Action<T>)
    requires Ring.Inv(s)
    ensures var s' := Ring.Next(s, p, a);
      && Ring.Inv(s') && s.pushed <= s'.pushed
      && BagStep(RingStage(s, p), RingStage(s', p), RingBag(s), RingBag(s'))
  {
    hide Slot, BitAnd, Ring.Next, RingStage, Ring.CellInv, Ring.OwnerInv, Ring.ReturnedInv, Ring.ThreadInv;
    hide Ring.Refines, RingBag;
    var s' := Ring.Next(s, p, a);
    Ring.StepRefinesQueue(s, p, a);
    RingStages(s, p, a);
    RingBagFollows(s, s', p);
    if Ring.PcOf(s, p).PopCasHead? && Ring.PcOf(s', p).PopRead? {
      HandedOutStage(s', p);
    }
  }

  lemma HandedOutStage<T>(s: Ring.State<T>, p: Tid)
    requires Ring.Inv(s) && Ring.PcOf(s, p).PopRead?
    ensures var h := Ring.PcOf(s, p).h; h < |s.pushed| && RingStage(s, p) == Took(s.pushed[h])
  {
    HandedOut(s, p);
    hide Ring.Inv;
  }

  predicate PushesList<T>(pc: List.Pc<T>) { pc.PushAlloc? || List.Making(pc) || pc.PushSwing? || pc.PushEnd? }

  lemma ListPushStages<T>(s: List.State<T>, p: Tid, spurious: bool)
    requires PushesList(List.PcOf(s, p))
    ensures var s' := List.Next(s, p, List.Step(spurious)); var pc, pc' := List.PcOf(s, p), List.PcOf(s', p);
      && (ListStage(s', p).Outside? <==> pc.PushEnd?)
      && if pc.PushLink? && pc'.PushSwing? then ListStage(s, p) == Pushing(pc.v) && ListStage(s', p).Pushed?
         else IsQuiet(ListStage(s, p), ListStage(s', p)) && !pc'.FreeLoad?
  {
  }

  lemma ListCheckStages<T>(s: List.State<T>, p: Tid, spurious: bool)
    requires List.PcOf(s, p).PopCheck?
    ensures var s' := List.Next(s, p, List.Step(spurious));
      ListStage(s', p).Popping? || ListStage(s', p).Missed?
  {
  }

  lemma ListCasStages<T>(s: List.State<T>, p: Tid, spurious: bool)
    requires List.PcOf(s, p).PopCas?
    ensures var s' := List.Next(s, p, List.Step(spurious)); var pc' := List.PcOf(s', p);
      if pc'.FreeLoad? then ListStage(s', p) == Took(pc'.r) else ListStage(s', p).Popping?
  {
  }

  lemma ListScanStages<T>(s: List.State<T>, p: Tid, spurious: bool)
    requires var pc := List.PcOf(s, p); List.Loading(pc) || pc.PopHelp? || pc.PopReadData?
    ensures ListStage(List.Next(s, p, List.Step(spurious)), p).Popping?
  {
  }

  lemma ListEndStages<T>(s: List.State<T>, p: Tid, spurious: bool)
    requires List.PcOf(s, p).PopEnd? || List.PcOf(s, p).Idle?
    ensures ListStage(List.Next(s, p, List.Step(spurious)), p).Outside?
  {
  }

  lemma ListPopStages<T>(s: List.State<T>, p: Tid, spurious: bool)
    requires !PushesList(List.PcOf(s, p)) && !List.Freeing(List.PcOf(s, p))
    ensures var s' := List.Next(s, p, List.Step(spurious)); var pc, pc' := List.PcOf(s, p), List.PcOf(s', p);
      && (ListStage(s', p).Outside? <==> pc.PopEnd? || pc.Idle?)
      && if pc.PopCas? && pc'.FreeLoad? then ListStage(s, p).Popping? && ListStage(s', p) == Took(pc'.r)
         else IsQuiet(ListStage(s, p), ListStage(s', p))
  {
    hide List.Next;
    match List.PcOf(s, p) {
      case PopCheck(_, _, _, _, _) => ListCheckStages(s, p, spurious);
      case PopCas(_, _, _, _) => ListCasStages(s, p, spurious);
      case PopEnd(_) => ListEndStages(s, p, spurious);
      case Idle => ListEndStages(s, p, spurious);
      case _ => ListScanStages(s, p, spurious);
    }
  }

  lemma ListFreeStages<T>(s: List.State<T>, p: Tid, spurious: bool)
    requires List.Freeing(List.PcOf(s, p))
    ensures var s' := List.Next(s, p, List.Step(spurious));
      IsQuiet(ListStage(s, p), ListStage(s', p)) && !ListStage(s', p).Outside?
  {
  }

  lemma ListCallStages<T>(s: List.State<T>, p: Tid, a: List.Action<T>)
    requires !a.Step?
    ensures var s' := List.Next(s, p, a); var pc, pc' := List.PcOf(s, p), List.PcOf(s', p);
      && IsQuiet(ListStage(s, p), ListStage(s', p))
      && !(pc.PushLink? && pc'.PushSwing?) && !(pc.PopCas? && pc'.FreeLoad?)
  {
  }

  lemma ListStages<T>(s: List.State<T>, p: Tid, a: List.Action<T>)
    ensures var s' := List.Next(s, p, a); var pc, pc' := List.PcOf(s, p), List.PcOf(s', p);
      if pc.PushLink? && pc'.PushSwing? then ListStage(s, p) == Pushing(pc.v) && ListStage(s', p).Pushed?
      else if pc.PopCas? && pc'.FreeLoad? then ListStage(s, p).Popping? && ListStage(s', p) == Took(pc'.r)
      else IsQuiet(ListStage(s, p), ListStage(s', p))
  {
    hide List.Next, ListStage, IsQuiet;
    if !a.Step? {
      ListCallStages(s, p, a);
    } else if PushesList(List.PcOf(s, p)) {
      ListPushStages(s, p, a.spurious);
    } else if List.Freeing(List.PcOf(s, p)) {
      ListFreeStages(s, p, a.spurious);
    } else {
      ListPopStages(s, p, a.spurious);
    }
  }

  lemma ListBagFollows<T>(s: List.State<T>, s': List.State<T>, p: Tid)
    requires List.Refines(s, p, s')
    ensures var pc, pc' := List.PcOf(s, p), List.PcOf(s', p);
      if pc.PushLink? && pc'.PushSwing? then ListBag(s') == ListBag(s) + multiset{pc.v}
      else if pc.PopCas? && pc'.FreeLoad? then ListBag(s) == ListBag(s') + multiset{pc'.r}
      else ListBag(s') == ListBag(s)
  {
    hide List.Abs;
    if List.Abs(s) != [] {
      FirstLeaves(List.Abs(s));
    }
  }

  lemma ListIsBag<T>(s: List.State<T>, p: Tid, a: List.Action<T>)
    requires List.Inv(s)
    ensures var s' := List.Next(s, p, a);
      List.Inv(s') && BagStep(ListStage(s, p), ListStage(s', p), ListBag(s), ListBag(s'))
  {
    hide List.Next, List.Inv, ListStage, List.Refines, ListBag;
    List.StepRefinesQueue(s, p, a);
    ListStages(s, p, a);
    ListBagFollows(s, List.Next(s, p, a), p);
  }

  // ----- calls that begin and end ------------------------------------------------------------------

  lemma RingPushes<T>(s: Ring.State<T>, p: Tid, v: T)
    requires Ring.WellFormed(s) && Ring.PcOf(s, p).Idle?
    ensures RingStage(Ring.Next(s, p, Ring.CallPush(v)), p) == Pushing(v)
  {
    hide Slot, BitAnd;
  }

  lemma RingPops<T>(s: Ring.State<T>, p: Tid)
    requires Ring.WellFormed(s) && Ring.PcOf(s, p).Idle?
    ensures RingStage(Ring.Next(s, p, Ring.CallPop), p) == Popping
  {
    hide Slot, BitAnd;
  }

  lemma RingLast<T>(s: Ring.State<T>, p: Tid)
    ensures var pc, st := Ring.PcOf(s, p), RingStage(s, p);
      && (pc.PushEnd? ==> if pc.ok then st.Pushed? else st.Refused?)
      && (pc.PopEnd? ==> if pc.result.Some? then st == Took(pc.result.value) else st.Missed?)
      && (st.Refused? ==> pc.PushEnd?) && (st.Missed? ==> pc.PopEnd?)
  {
  }

  lemma RingPopReturns<T>(s: Ring.State<T>, p: Tid, spurious: bool)
    requires Ring.WellFormed(s) && !PushesRing(Ring.PcOf(s, p)) && !Ring.PcOf(s, p).Idle?
    ensures RingStage(Ring.Next(s, p, Ring.Step(spurious)), p).Outside? <==> Ring.PcOf(s, p).PopEnd?
  {
    hide Slot, BitAnd;
  }

  /** A call at the ring returns from its last stage. */
  lemma RingReturns<T>(s: Ring.State<T>, p: Tid, spurious: bool)
    requires Ring.WellFormed(s) && !Ring.PcOf(s, p).Idle?
    ensures RingStage(Ring.Next(s, p, Ring.Step(spurious)), p).Outside? <==>
            Ring.PcOf(s, p).PushEnd? || Ring.PcOf(s, p).PopEnd?
  {
    hide Ring.Next, RingStage, IsQuiet, Slot, BitAnd;
    if PushesRing(Ring.PcOf(s, p)) {
      RingPushStages(s, p, spurious);
    } else {
      RingPopReturns(s, p, spurious);
    }
  }

  lemma RingOthers<T>(s: Ring.State<T>, p: Tid, a: Ring.Action<T>, q: Tid)
    requires Ring.Inv(s) && q != p
    ensures RingStage(Ring.Next(s, p, a), q) == RingStage(s, q)
  {
    hide Ring.Next, Ring.CountersInv, Ring.CellInv, Ring.OwnerInv, Ring.ThreadInv, Ring.ReturnedInv, Slot, BitAnd;
    hide RingStage, Ring.MovesOnly, BagStep;
    Ring.StaysApart(s, p, a);
    RingIsBag(s, p, a);
    RingSame(s, Ring.Next(s, p, a), p, q);
  }

  lemma RingSame<T>(s: Ring.State<T>, s': Ring.State<T>, p: Tid, q: Tid)
    requires Ring.Inv(s) && q != p && Ring.MovesOnly(s, s', p) && s.pushed <= s'.pushed
    ensures RingStage(s', q) == RingStage(s, q)
  {
    if Ring.PcOf(s, q).PopRead? { HandedOut(s, q); }
    hide Ring.Inv;
  }

  lemma ListPushes<T>(s: List.State<T>, p: Tid, v: T)
    requires List.PcOf(s, p).Idle?
    ensures ListStage(List.Next(s, p, List.CallPush(v)), p) == Pushing(v)
  {
  }

  lemma ListPops<T>(s: List.State<T>, p: Tid)
    requires List.PcOf(s, p).Idle?
    ensures ListStage(List.Next(s, p, List.CallPop), p) == Popping
  {
  }

  lemma ListLast<T>(s: List.State<T>, p: Tid)
    ensures var pc, st := List.PcOf(s, p), ListStage(s, p);
      && (pc.PushEnd? ==> st.Pushed?)
      && (pc.PopEnd? ==> if pc.result.Some? then st == Took(pc.result.value) else st.Missed?)
      && (st.Missed? ==> pc.PopEnd?) && !st.Refused?
  {
  }

  /** A call at the linked queue returns from its last stage. */
  lemma ListReturns<T>(s: List.State<T>, p: Tid, spurious: bool)
    requires !List.PcOf(s, p).Idle?
    ensures ListStage(List.Next(s, p, List.Step(spurious)), p).Outside? <==>
            List.PcOf(s, p).PushEnd? || List.PcOf(s, p).PopEnd?
  {
    hide List.Next, ListStage, IsQuiet;
    if PushesList(List.PcOf(s, p)) {
      ListPushStages(s, p, spurious);
    } else if List.Freeing(List.PcOf(s, p)) {
      ListFreeStages(s, p, spurious);
    } else {
      ListPopStages(s, p, spurious);
    }
  }

  lemma ListOthers<T>(s: List.State<T>, p: Tid, a: List.Action<T>)
    requires List.Inv(s)
    ensures List.MovesOnly(s, List.Next(s, p, a), p)
    ensures forall q: Tid :: q != p ==> ListStage(List.Next(s, p, a), q) == ListStage(s, q)
    ensures s.head.count <= List.Next(s, p, a).head.count
  {
    List.StaysApart(s, p, a);
    List.StepRefinesQueue(s, p, a);
    hide List.Next, List.Abs;
  }

  // ----- the two parts together ----------------------------------------------------------------------

  ghost predicate IsPush<T>(st: Stage<T>, v: T) { st == Pushing(v) || st.Pushed? || st.Refused? }

  predicate IsPop<T>(st: Stage<T>) { st.Popping? || st.Took? || st.Missed? }

  /** A thread is inside one part at most, with the call it makes. */
  ghost predicate Linked<T>(s: State<T>, p: Tid) {
    var r, l := RingStage(s.ring, p), ListStage(s.list, p);
    match PcOf(s, p)
    case Idle => r.Outside? && l.Outside?
    case RingPush(v) => IsPush(r, v) && l.Outside?
    case ListPush(v) => r.Outside? && IsPush(l, v) && !l.Refused?
    case RingPop => IsPop(r) && l.Outside?
    case ListPop => r.Outside? && IsPop(l)
  }

  ghost predicate PartsInv<T>(s: State<T>) {
    && WellFormed(s) && Ring.Inv(s.ring) && List.Inv(s.list)
    && forall p: Tid :: Linked(s, p)
  }

  ghost function Bag<T>(s: State<T>): multiset<T>
    requires PartsInv(s)
  {
    RingBag(s.ring) + ListBag(s.list)
  }

  lemma InitParts<T>(size: nat, blank: T)
    requires ValidSize(size) && size >= 2
    ensures PartsInv(Init(size, blank)) && Bag(Init(size, blank)) == multiset{}
  {
    Ring.InitInv(size, blank);
    List.InitInv(blank);
    hide Slot, BitAnd, Ring.Inv, List.Inv;
  }

  lemma OutsideIsIdle<T>(s: State<T>, p: Tid)
    ensures RingStage(s.ring, p).Outside? <==> Ring.PcOf(s.ring, p).Idle?
    ensures ListStage(s.list, p).Outside? <==> List.PcOf(s.list, p).Idle?
  {
  }

  /** A step of `p` at the ring. */
  lemma AtRing<T>(s: State<T>, p: Tid, a: Ring.Action<T>)
    requires PartsInv(s)
    ensures var r := Ring.Next(s.ring, p, a);
      && Ring.Inv(r) && BagStep(RingStage(s.ring, p), RingStage(r, p), RingBag(s.ring), RingBag(r))
      && forall q: Tid :: q != p ==> RingStage(r, q) == RingStage(s.ring, q)
  {
    hide Ring.Next, Ring.Inv, List.Inv, RingStage, BagStep;
    RingIsBag(s.ring, p, a);
    forall q: Tid | q != p ensures RingStage(Ring.Next(s.ring, p, a), q) == RingStage(s.ring, q) {
      RingOthers(s.ring, p, a, q);
    }
  }

  lemma AtList<T>(s: State<T>, p: Tid, a: List.Action<T>)
    requires PartsInv(s)
    ensures var l := List.Next(s.list, p, a);
      && List.Inv(l) && BagStep(ListStage(s.list, p), ListStage(l, p), ListBag(s.list), ListBag(l))
      && forall q: Tid :: q != p ==> ListStage(l, q) == ListStage(s.list, q)
  {
    hide List.Next, Ring.Inv, List.Inv, ListStage, BagStep;
    ListIsBag(s.list, p, a);
    ListOthers(s.list, p, a);
  }

  /** What `p` does to the bag; the other threads do not notice. */
  ghost predicate Steps<T>(s: State<T>, s': State<T>, p: Tid)
    requires PartsInv(s)
  {
    && PartsInv(s') && BagStep(StageOf(s, p), StageOf(s', p), Bag(s), Bag(s'))
    && forall q: Tid :: q != p ==> StageOf(s', q) == StageOf(s, q)
  }

  lemma SameThread<T>(s: State<T>, s': State<T>, q: Tid)
    requires PcOf(s', q) == PcOf(s, q) && Linked(s, q)
    requires RingStage(s'.ring, q) == RingStage(s.ring, q) && ListStage(s'.list, q) == ListStage(s.list, q)
    ensures Linked(s', q) && StageOf(s', q) == StageOf(s, q)
  {
    hide RingStage, ListStage;
  }

  lemma OthersStay<T>(s: State<T>, s': State<T>, p: Tid)
    requires PartsInv(s) && WellFormed(s') && Ring.Inv(s'.ring) && List.Inv(s'.list) && Linked(s', p)
    requires forall q: Tid :: q != p ==>
      && PcOf(s', q) == PcOf(s, q)
      && RingStage(s'.ring, q) == RingStage(s.ring, q) && ListStage(s'.list, q) == ListStage(s.list, q)
    requires
      var b, b' := RingBag(s.ring) + ListBag(s.list), RingBag(s'.ring) + ListBag(s'.list);
      BagStep(StageOf(s, p), StageOf(s', p), b, b')
    ensures Steps(s, s', p)
  {
    hide RingStage, ListStage, StageOf, Ring.Inv, List.Inv, BagStep, Linked, RingBag, ListBag;
    forall q: Tid | q != p ensures Linked(s', q) && StageOf(s', q) == StageOf(s, q) {
      SameThread(s, s', q);
    }
  }

  lemma CallSteps<T>(s: State<T>, p: Tid, a: Action<T>)
    requires PartsInv(s) && !a.Step?
    ensures Steps(s, Move(s, p, a), p)
  {
    hide Ring.Next, Ring.Inv, List.Inv, RingStage, ListStage, RingBag, ListBag;
    assert Linked(s, p);
    OutsideIsIdle(s, p);
    if PcOf(s, p).Idle? {
      if a.CallPush? {
        AtRing(s, p, Ring.CallPush(a.v));
        RingPushes(s.ring, p, a.v);
      } else {
        AtRing(s, p, Ring.CallPop);
        RingPops(s.ring, p);
      }
      OthersStay(s, Move(s, p, a), p);
    }
  }

  lemma RingPushSteps<T>(s: State<T>, p: Tid, v: T, spurious: bool)
    requires PartsInv(s) && PcOf(s, p) == RingPush(v)
    ensures Steps(s, RingPushMove(s, p, v, spurious), p)
  {
    hide Ring.Next, List.Next, Ring.Inv, List.Inv, RingStage, ListStage, RingBag, ListBag;
    assert Linked(s, p);
    OutsideIsIdle(s, p);
    AtRing(s, p, Ring.Step(spurious));
    RingReturns(s.ring, p, spurious);
    RingLast(s.ring, p);
    if Ring.PcOf(s.ring, p).PushEnd? && !Ring.PcOf(s.ring, p).ok {
      AtList(s, p, List.CallPush(v));
      ListPushes(s.list, p, v);
    }
    OthersStay(s, RingPushMove(s, p, v, spurious), p);
  }

  lemma RingPopSteps<T>(s: State<T>, p: Tid, spurious: bool)
    requires PartsInv(s) && PcOf(s, p) == RingPop
    ensures Steps(s, RingPopMove(s, p, spurious), p)
  {
    if Ring.PcOf(s.ring, p).PopEnd? {
      RingPopEnds(s, p, spurious);
    } else {
      RingPopGoesOn(s, p, spurious);
    }
    hide *;
  }

  lemma RingPopGoesOn<T>(s: State<T>, p: Tid, spurious: bool)
    requires PartsInv(s) && PcOf(s, p) == RingPop && !Ring.PcOf(s.ring, p).PopEnd?
    ensures Steps(s, RingPopMove(s, p, spurious), p)
  {
    hide Ring.Next, List.Next, Ring.Inv, List.Inv, RingStage, ListStage, RingBag, ListBag;
    assert Linked(s, p);
    OutsideIsIdle(s, p);
    AtRing(s, p, Ring.Step(spurious));
    RingReturns(s.ring, p, spurious);
    RingLast(s.ring, p);
    OthersStay(s, RingPopMove(s, p, spurious), p);
  }

  lemma RingPopEnds<T>(s: State<T>, p: Tid, spurious: bool)
    requires PartsInv(s) && PcOf(s, p) == RingPop && Ring.PcOf(s.ring, p).PopEnd?
    ensures Steps(s, RingPopMove(s, p, spurious), p)
  {
    hide Ring.Next, List.Next, Ring.Inv, List.Inv, RingStage, ListStage, RingBag, ListBag;
    assert Linked(s, p);
    OutsideIsIdle(s, p);
    AtRing(s, p, Ring.Step(spurious));
    RingReturns(s.ring, p, spurious);
    RingLast(s.ring, p);
    if Ring.PcOf(s.ring, p).result.None? {
      AtList(s, p, List.CallPop);
      ListPops(s.list, p);
    }
    OthersStay(s, RingPopMove(s, p, spurious), p);
  }

  lemma ListSteps<T>(s: State<T>, p: Tid, last: bool, spurious: bool)
    requires PartsInv(s) && (PcOf(s, p).ListPush? || PcOf(s, p).ListPop?)
    requires last == if PcOf(s, p).ListPush? then List.PcOf(s.list, p).PushEnd? else List.PcOf(s.list, p).PopEnd?
    ensures Steps(s, ListMove(s, p, last, spurious), p)
  {
    hide List.Next, Ring.Inv, List.Inv, RingStage, ListStage, RingBag, ListBag;
    assert Linked(s, p);
    OutsideIsIdle(s, p);
    AtList(s, p, List.Step(spurious));
    ListReturns(s.list, p, spurious);
    ListLast(s.list, p);
    ListLast(List.Next(s.list, p, List.Step(spurious)), p);
    OthersStay(s, ListMove(s, p, last, spurious), p);
  }

  /**
    The composition is a bag, in every interleaving of the accesses of both parts: each step is,
    for its thread, a step of a client of a bag, and changes nothing for the others.
   */
  lemma MoveIsBagStep<T>(s: State<T>, p: Tid, a: Action<T>)
    requires PartsInv(s)
    ensures Steps(s, Move(s, p, a), p)
  {
    hide Steps, RingPushMove, RingPopMove, ListMove, Linked, Ring.Next, List.Next, Ring.Inv, List.Inv;
    if !a.Step? {
      CallSteps(s, p, a);
    } else {
      match PcOf(s, p) {
        case Idle => IdleSteps(s, p, a);
        case RingPush(v) => RingPushSteps(s, p, v, a.spurious);
        case RingPop => RingPopSteps(s, p, a.spurious);
        case ListPush(_) => ListSteps(s, p, List.PcOf(s.list, p).PushEnd?, a.spurious);
        case ListPop => ListSteps(s, p, List.PcOf(s.list, p).PopEnd?, a.spurious);
      }
    }
  }

  lemma IdleSteps<T>(s: State<T>, p: Tid, a: Action<T>)
    requires PartsInv(s) && PcOf(s, p).Idle?
    ensures Steps(s, s, p)
  {
    hide Ring.Inv, List.Inv;
  }

  // ----- false answers ------------------------------------------------------------------------------------

  ghost predicate BothEmpty<T>(s: State<T>) { s.ring.head == s.ring.tail && List.Abs(s.list) == [] }

  /** A pop may miss: nothing is there, or a push has put its value in and has not returned. */
  ghost predicate MayMiss<T>(s: State<T>) {
    BothEmpty(s) || exists q: Tid :: StageOf(s, q).Pushed?
  }

  predicate Pops<T>(pc: Pc<T>) { pc.RingPop? || pc.ListPop? }

  /** A pop is excused from the first moment of its call at which it may miss. */
  ghost function Next<T>(s: State<T>, p: Tid, a: Action<T>): (s': State<T>)
    requires WellFormed(s)
    ensures WellFormed(s')
  {
    var s1 := Move(s, p, a);
    s1.(excused := set q | q in s1.pcs && Pops(s1.pcs[q]) && (MayMiss(s1) || (q in s.excused && Pops(PcOf(s, q)))))
  }

  lemma EmptyRing<T>(s: Ring.State<T>)
    requires Ring.CountersInv(s)
    ensures RingBag(s) == multiset{} <==> s.head == s.tail
  {
    if s.head < s.tail {
      assert Ring.Abs(s)[0] in RingBag(s);
    } else {
      assert Ring.Abs(s) == [];
    }
  }

  lemma EmptyBag<T>(s: State<T>)
    requires PartsInv(s)
    ensures BothEmpty(s) <==> Bag(s) == multiset{}
  {
    EmptyRing(s.ring);
    if List.Abs(s.list) != [] {
      assert List.Abs(s.list)[0] in ListBag(s.list);
    }
    hide RingBag, List.Abs, List.Inv, Linked, Slot, BitAnd;
    hide Ring.CellInv, Ring.OwnerInv, Ring.ThreadInv, Ring.ReturnedInv;
  }

  /** What a pop in progress may rely on. */
  ghost predicate MissInv<T>(s: State<T>, p: Tid) {
    var pc, l := PcOf(s, p), List.PcOf(s.list, p);
    && ((pc.RingPop? && RingStage(s.ring, p).Missed?) || pc.ListPop? ==> p in s.excused || s.ring.head == s.ring.tail)
    && (pc.ListPop? && l.PopEnd? && l.result.None? ==> p in s.excused)
    && (pc.ListPop? && l.PopCheck? && l.head == l.tail && l.next.id == 0 ==>
          p in s.excused || l.head.count < s.list.head.count)
  }

  ghost predicate Inv<T>(s: State<T>) {
    PartsInv(s) && forall p: Tid :: MissInv(s, p)
  }

  /** The ring ceases to be empty only by a push. */
  lemma RingFills<T>(s: State<T>, p: Tid, a: Ring.Action<T>)
    requires PartsInv(s) && s.ring.head == s.ring.tail
    ensures var r := Ring.Next(s.ring, p, a); r.head == r.tail || RingStage(r, p).Pushed?
  {
    var r := Ring.Next(s.ring, p, a);
    AtRing(s, p, a);
    EmptyRing(s.ring);
    EmptyRing(r);
    hide Ring.Next, RingStage, RingBag, List.Inv, Linked, Slot, BitAnd;
    hide Ring.CellInv, Ring.OwnerInv, Ring.ThreadInv, Ring.ReturnedInv;
  }

  /** A step is at most one access of the ring and one of the linked queue. */
  lemma MoveParts<T>(s: State<T>, p: Tid, a: Action<T>) returns (r: Option<Ring.Action<T>>, l: Option<List.Action<T>>)
    requires WellFormed(s)
    ensures var s' := Move(s, p, a);
      && s'.ring == (if r.Some? then Ring.Next(s.ring, p, r.value) else s.ring)
      && s'.list == (if l.Some? then List.Next(s.list, p, l.value) else s.list)
      && s'.excused == s.excused && forall q: Tid :: q != p ==> PcOf(s', q) == PcOf(s, q)
  {
    hide Ring.Next, List.Next;
    var pc, rp := PcOf(s, p), Ring.PcOf(s.ring, p);
    if !a.Step? {
      r := if !pc.Idle? then None else if a.CallPush? then Some(Ring.CallPush(a.v)) else Some(Ring.CallPop);
      l := None;
    } else if pc.RingPush? {
      r, l := Some(Ring.Step(a.spurious)), if rp.PushEnd? && !rp.ok then Some(List.CallPush(pc.v)) else None;
    } else if pc.RingPop? {
      r, l := Some(Ring.Step(a.spurious)), if rp.PopEnd? && rp.result.None? then Some(List.CallPop) else None;
    } else {
      r, l := None, if pc.Idle? then None else Some(List.Step(a.spurious));
    }
  }

  lemma MoveFills<T>(s: State<T>, p: Tid, a: Action<T>)
    requires PartsInv(s) && s.ring.head == s.ring.tail
    ensures var s' := Move(s, p, a); s'.ring.head == s'.ring.tail || MayMiss(s')
  {
    hide Move, Ring.Next, List.Next, RingStage, ListStage, Ring.Inv, List.Inv, BagStep;
    var s' := Move(s, p, a);
    MoveIsBagStep(s, p, a);
    var r, l := MoveParts(s, p, a);
    if r.Some? { RingFills(s, p, r.value); }
    if RingStage(s'.ring, p).Pushed? {
      assert Linked(s', p);
      assert StageOf(s', p).Pushed?;
    }
  }

  lemma OthersKeepMiss<T>(s: State<T>, p: Tid, a: Action<T>, q: Tid)
    requires Inv(s) && q != p
    ensures MissInv(Next(s, p, a), q)
  {
    var s' := Move(s, p, a);
    assert MissInv(s, q);
    OthersSame(s, p, a, q);
    if s.ring.head == s.ring.tail { MoveFills(s, p, a); }
    hide Move, MayMiss, PartsInv, RingStage;
  }

  lemma OthersSame<T>(s: State<T>, p: Tid, a: Action<T>, q: Tid)
    requires PartsInv(s) && q != p
    ensures var s' := Move(s, p, a);
      && PcOf(s', q) == PcOf(s, q) && RingStage(s'.ring, q) == RingStage(s.ring, q)
      && List.PcOf(s'.list, q) == List.PcOf(s.list, q) && s.list.head.count <= s'.list.head.count
  {
    hide Move, Ring.Next, List.Next, RingStage, ListStage, Ring.Inv, List.Inv;
    var r, l := MoveParts(s, p, a);
    if r.Some? { RingOthers(s.ring, p, r.value, q); }
    if l.Some? { ListOthers(s.list, p, l.value); }
  }

  /** The ring answers false to a pop only when it is empty or a push has not returned. */
  lemma RingMisses<T>(s: State<T>, p: Tid, spurious: bool)
    requires PartsInv(s) && PcOf(s, p).RingPop? && !RingStage(s.ring, p).Missed?
    requires RingStage(Ring.Next(s.ring, p, Ring.Step(spurious)), p).Missed?
    ensures var r := Ring.Next(s.ring, p, Ring.Step(spurious));
      r.head == r.tail || exists q: Tid :: q != p && RingStage(s.ring, q).Pushed?
  {
    assert Linked(s, p);
    RingMissesAtTest(s.ring, p, spurious);
    var h := Ring.PcOf(s.ring, p).h;
    Ring.PopFalseMeaning(s.ring, p, h);
    if q: Tid :| Ring.Publishing(Ring.PcOf(s.ring, q), h) {
      assert RingStage(s.ring, q).Pushed?;
    }
    hide Ring.Inv, List.Inv, ListStage, Ring.Next, Slot, BitAnd;
  }

  lemma RingMissesAtTest<T>(s: Ring.State<T>, p: Tid, spurious: bool)
    requires Ring.WellFormed(s) && IsPop(RingStage(s, p)) && !RingStage(s, p).Missed?
    requires RingStage(Ring.Next(s, p, Ring.Step(spurious)), p).Missed?
    ensures Ring.PcOf(s, p).PopLoadSeq?
    ensures var s' := Ring.Next(s, p, Ring.Step(spurious));
      && s' == Ring.PopTest(s, p, Ring.PcOf(s, p).h) && Ring.PcOf(s', p) == Ring.PopEnd(None)
      && s'.head == s.head && s'.tail == s.tail
  {
    hide Slot, BitAnd;
  }

  /** Where the linked queue answers false, and what that rests on. */
  lemma ListMisses<T>(s: List.State<T>, p: Tid, spurious: bool)
    requires IsPop(ListStage(s, p)) && !List.Freeing(List.PcOf(s, p))
    ensures var pc, pc' := List.PcOf(s, p), List.PcOf(List.Next(s, p, List.Step(spurious)), p);
      && (pc'.PopEnd? && pc'.result.None? ==>
            pc.PopCheck? && pc.head == s.head && pc.head == pc.tail && pc.next.id == 0)
      && (pc'.PopCheck? ==> pc.PopLoadNext? && pc'.head == pc.head && pc'.next == List.NextOf(s, pc.head.id))
  {
  }

  lemma ListFrees<T>(s: List.State<T>, p: Tid, spurious: bool)
    requires List.Freeing(List.PcOf(s, p))
    ensures var pc' := List.PcOf(List.Next(s, p, List.Step(spurious)), p);
      !pc'.PopCheck? && !(pc'.PopEnd? && pc'.result.None?)
  {
  }

  /** A null `next` of the present head means that the queue is empty. */
  lemma NullMeansEmpty<T>(s: List.State<T>, p: Tid)
    requires List.Inv(s) && List.PcOf(s, p).PopLoadNext? && List.NextOf(s, List.PcOf(s, p).head.id).id == 0
    ensures List.PcOf(s, p).head.count < s.head.count || List.Abs(s) == []
  {
    assert List.ThreadInv(s, p);
    if List.PcOf(s, p).head.count == s.head.count {
      List.LiveNext(s, s.head.count);
    }
    hide List.ChainInv, List.NodeInv, List.FateInv, List.PoolInv, List.FreeInv, List.EmptyInv;
  }

  /** Still at the ring: a miss there comes with an empty ring or a push that has not returned. */
  lemma AtRingKeepsMiss<T>(s: State<T>, p: Tid, spurious: bool)
    requires Inv(s) && PcOf(s, p).RingPop? && !Ring.PcOf(s.ring, p).PopEnd?
    ensures MissInv(Next(s, p, Step(spurious)), p)
  {
    hide Ring.Next, RingStage, ListStage, Ring.Inv, List.Inv, BagStep, StageOf, BothEmpty, List.Next;
    RingLast(s.ring, p);
    if RingStage(RingMove(s, p, spurious).ring, p).Missed? {
      RingMisses(s, p, spurious);
      MoveIsBagStep(s, p, Step(spurious));
      if q: Tid :| q != p && RingStage(s.ring, q).Pushed? {
        PushedInRing(s, q);
      }
    }
  }

  /** The pop goes on to the linked queue, or returns. */
  lemma FromRingKeepsMiss<T>(s: State<T>, p: Tid, spurious: bool)
    requires Inv(s) && PcOf(s, p).RingPop? && Ring.PcOf(s.ring, p).PopEnd?
    ensures MissInv(Next(s, p, Step(spurious)), p)
  {
    hide Ring.Next, List.Next, RingStage, ListStage, Ring.Inv, List.Inv, MayMiss, PartsInv;
    assert MissInv(s, p);
    RingLast(s.ring, p);
    InListNext(s, p);
    if s.ring.head == s.ring.tail {
      MoveFills(s, p, Step(spurious));
    }
  }

  lemma InListNext<T>(s: State<T>, p: Tid)
    requires PartsInv(s) && PcOf(s, p).RingPop?
    ensures List.PcOf(List.Next(s.list, p, List.CallPop), p).PopLoadHead?
  {
    assert Linked(s, p);
    OutsideIsIdle(s, p);
    ListPopStarts(s.list, p);
    hide Ring.Inv, List.Inv, RingStage, ListStage, List.Next;
  }

  /** At the linked queue. */
  lemma ListPopKeepsMiss<T>(s: State<T>, p: Tid, spurious: bool)
    requires Inv(s) && PcOf(s, p).ListPop? && !List.PcOf(s.list, p).PopEnd?
    ensures MissInv(Next(s, p, Step(spurious)), p)
  {
    hide List.Next, RingStage, ListStage, Ring.Inv, List.Inv, StageOf, PartsInv, List.Abs;
    assert MissInv(s, p);
    ListFacts(s, p, spurious);
    ListLeavesAbs(s, p, spurious);
  }

  lemma ListFacts<T>(s: State<T>, p: Tid, spurious: bool)
    requires PartsInv(s) && PcOf(s, p).ListPop?
    ensures var pc, pc' := List.PcOf(s.list, p), List.PcOf(List.Next(s.list, p, List.Step(spurious)), p);
      && (pc'.PopEnd? && pc'.result.None? ==>
            pc.PopCheck? && pc.head == s.list.head && pc.head == pc.tail && pc.next.id == 0)
      && (pc'.PopCheck? ==> pc.PopLoadNext? && pc'.head == pc.head && pc'.next == List.NextOf(s.list, pc.head.id))
  {
    assert Linked(s, p);
    if List.Freeing(List.PcOf(s.list, p)) {
      ListFrees(s.list, p, spurious);
    } else {
      ListMisses(s.list, p, spurious);
    }
    hide Ring.Inv, List.Inv, RingStage, ListStage, List.Next;
  }

  /** At the load of `next` the queue is empty, or the head read before is stale. */
  lemma ListLeavesAbs<T>(s: State<T>, p: Tid, spurious: bool)
    requires PartsInv(s) && PcOf(s, p).ListPop?
    ensures var pc, l := List.PcOf(s.list, p), List.Next(s.list, p, List.Step(spurious));
      pc.PopLoadNext? && List.NextOf(s.list, pc.head.id).id == 0 ==>
        List.Abs(l) == [] || pc.head.count < l.head.count
  {
    if List.PcOf(s.list, p).PopLoadNext? && List.NextOf(s.list, List.PcOf(s.list, p).head.id).id == 0 {
      NullMeansEmpty(s.list, p);
    }
    hide Ring.Inv, List.Inv, RingStage, ListStage;
  }

  lemma ListPopStarts<T>(s: List.State<T>, p: Tid)
    requires List.PcOf(s, p).Idle?
    ensures List.PcOf(List.Next(s, p, List.CallPop), p).PopLoadHead?
  {
  }

  lemma PushedInRing<T>(s: State<T>, q: Tid)
    requires PartsInv(s) && RingStage(s.ring, q).Pushed?
    ensures StageOf(s, q).Pushed?
  {
    assert Linked(s, q);
    hide Ring.Inv, List.Inv, RingStage, ListStage;
  }

  lemma OwnKeepsMiss<T>(s: State<T>, p: Tid, a: Action<T>)
    requires Inv(s)
    ensures MissInv(Next(s, p, a), p)
  {
    hide Ring.Next, List.Next, RingStage, ListStage, Ring.Inv, List.Inv, MayMiss, BothEmpty;
    if !a.Step? {
      if PcOf(s, p).Idle? && a.CallPop? {
        assert Linked(s, p);
        OutsideIsIdle(s, p);
        RingPops(s.ring, p);
      } else if !PcOf(s, p).Idle? {
        IdleKeepsMiss(s, p, a);
      }
    } else if PcOf(s, p).RingPop? {
      if Ring.PcOf(s.ring, p).PopEnd? { FromRingKeepsMiss(s, p, a.spurious); }
      else { AtRingKeepsMiss(s, p, a.spurious); }
    } else if PcOf(s, p).ListPop? && !List.PcOf(s.list, p).PopEnd? {
      ListPopKeepsMiss(s, p, a.spurious);
    }
  }

  lemma IdleKeepsMiss<T>(s: State<T>, p: Tid, a: Action<T>)
    requires Inv(s) && Move(s, p, a) == s
    ensures MissInv(Next(s, p, a), p)
  {
    assert MissInv(s, p);
    hide PartsInv, RingStage, MayMiss;
  }

  lemma NextKeepsInv<T>(s: State<T>, p: Tid, a: Action<T>)
    requires Inv(s)
    ensures Inv(Next(s, p, a)) && Steps(s, Next(s, p, a), p)
  {
    hide Move, MissInv, MayMiss, Ring.Inv, List.Inv, RingStage, ListStage, BagStep;
    MoveIsBagStep(s, p, a);
    SameParts(Move(s, p, a), Next(s, p, a));
    forall q: Tid ensures MissInv(Next(s, p, a), q) {
      if q == p { OwnKeepsMiss(s, p, a); } else { OthersKeepMiss(s, p, a, q); }
    }
  }

  lemma SameParts<T>(s: State<T>, s': State<T>)
    requires PartsInv(s) && s'.ring == s.ring && s'.list == s.list && s'.pcs == s.pcs
    ensures PartsInv(s') && Bag(s') == Bag(s) && forall q: Tid :: StageOf(s', q) == StageOf(s, q)
  {
    forall q: Tid ensures Linked(s', q) {
      assert Linked(s, q);
    }
    hide Ring.Inv, List.Inv, RingStage, ListStage;
  }

  // ----- whole runs ----------------------------------------------------------------------------------------

  ghost function Run<T>(s: State<T>, t: seq<(Tid, Action<T>)>): (s': State<T>)
    requires WellFormed(s)
    ensures WellFormed(s')
    decreases |t|
  {
    if t == [] then s
    else
      var (p, a) := t[|t| - 1];
      Next(Run(s, t[..|t| - 1]), p, a)
  }

  lemma InitInv<T>(size: nat, blank: T)
    requires ValidSize(size) && size >= 2
    ensures Inv(Init(size, blank))
  {
    InitParts(size, blank);
    hide PartsInv, Ring.Init, List.Init;
  }

  lemma {:induction false} RunKeepsInv<T>(s: State<T>, t: seq<(Tid, Action<T>)>)
    requires WellFormed(s) && Inv(s)
    ensures Inv(Run(s, t))
    decreases |t|
  {
    hide Inv, Next;
    if t == [] {
    } else {
      RunKeepsInv(s, t[..|t| - 1]);
      NextKeepsInv(Run(s, t[..|t| - 1]), t[|t| - 1].0, t[|t| - 1].1);
    }
  }

  /** The values whose pushes took effect in a step of `p`. */
  function In<T>(st: Stage<T>, st': Stage<T>): seq<T> { if st.Pushing? && st'.Pushed? then [st.v] else [] }

  function Out<T>(st: Stage<T>, st': Stage<T>): seq<T> { if st.Popping? && st'.Took? then [st'.r] else [] }

  ghost function Entered<T>(s: State<T>, t: seq<(Tid, Action<T>)>): seq<T>
    requires WellFormed(s)
    decreases |t|
  {
    if t == [] then []
    else
      var p, before := t[|t| - 1].0, t[..|t| - 1];
      Entered(s, before) + In(StageOf(Run(s, before), p), StageOf(Run(s, t), p))
  }

  ghost function Left<T>(s: State<T>, t: seq<(Tid, Action<T>)>): seq<T>
    requires WellFormed(s)
    decreases |t|
  {
    if t == [] then []
    else
      var p, before := t[|t| - 1].0, t[..|t| - 1];
      Left(s, before) + Out(StageOf(Run(s, before), p), StageOf(Run(s, t), p))
  }

  lemma StepConserves<T>(st: Stage<T>, st': Stage<T>, b: multiset<T>, b': multiset<T>)
    requires BagStep(st, st', b, b')
    ensures multiset(Out(st, st')) + b' == multiset(In(st, st')) + b
  {
  }

  lemma AddUp<T>(left: seq<T>, entered: seq<T>, b: multiset<T>, b': multiset<T>, outs: seq<T>, ins: seq<T>)
    requires multiset(left) + b == multiset(entered) && multiset(outs) + b' == multiset(ins) + b
    ensures multiset(left + outs) + b' == multiset(entered + ins)
  {
    calc {
      multiset(left + outs) + b';
      multiset(left) + (multiset(outs) + b');
      multiset(ins) + multiset(entered);
    }
  }

  lemma {:induction false} RunConserves<T>(s: State<T>, t: seq<(Tid, Action<T>)>)
    requires WellFormed(s) && Inv(s) && Bag(s) == multiset{}
    ensures Inv(Run(s, t)) && multiset(Left(s, t)) + Bag(Run(s, t)) == multiset(Entered(s, t))
    decreases |t|
  {
    hide Next, PartsInv, MissInv, Bag, StageOf, In, Out, BagStep;
    RunKeepsInv(s, t);
    if t == [] {
    } else {
      var (p, a) := t[|t| - 1];
      var before := t[..|t| - 1];
      var s0, s1 := Run(s, before), Run(s, t);
      RunConserves(s, before);
      NextKeepsInv(s0, p, a);
      StepConserves(StageOf(s0, p), StageOf(s1, p), Bag(s0), Bag(s1));
      AddUp(Left(s, before), Entered(s, before), Bag(s0), Bag(s1), Out(StageOf(s0, p), StageOf(s1, p)),
            In(StageOf(s0, p), StageOf(s1, p)));
    }
  }

  /**
    Conservation in every interleaving, overflow or not: what pops have taken and what the two parts
    hold is, each value as often, what pushes have put in.
   */
  lemma BagIsConserved<T>(size: nat, blank: T, t: seq<(Tid, Action<T>)>)
    requires ValidSize(size) && size >= 2
    ensures var s := Run(Init(size, blank), t);
      PartsInv(s) && multiset(Left(Init(size, blank), t)) + Bag(s) == multiset(Entered(Init(size, blank), t))
  {
    InitParts(size, blank);
    InitInv(size, blank);
    RunConserves(Init(size, blank), t);
    hide PartsInv, MissInv, Run, Init;
  }

  /** From moment `k` of the run on, thread `p` is in one `pop`, and at moment `k` a pop may miss. */
  ghost predicate ExcusedSince<T>(s: State<T>, t: seq<(Tid, Action<T>)>, p: Tid, k: nat)
    requires WellFormed(s)
  {
    && k <= |t| && MayMiss(Run(s, t[..k]))
    && forall j: nat :: k <= j <= |t| ==> Pops(PcOf(Run(s, t[..j]), p))
  }

  lemma RunUnfolds<T>(s: State<T>, t: seq<(Tid, Action<T>)>)
    requires WellFormed(s)
    ensures t == [] ==> Run(s, t) == s
    ensures t != [] ==> var (p, a) := t[|t| - 1]; Run(s, t) == Next(Run(s, t[..|t| - 1]), p, a)
  {
    hide Next;
  }

  lemma ExcusedNow<T>(s: State<T>, t: seq<(Tid, Action<T>)>, p: Tid)
    requires WellFormed(s) && MayMiss(Run(s, t)) && Pops(PcOf(Run(s, t), p))
    ensures ExcusedSince(s, t, p, |t|)
  {
    assert t[..|t|] == t;
    hide Run, MayMiss;
  }

  lemma ExcusedStill<T>(s: State<T>, t: seq<(Tid, Action<T>)>, p: Tid, k: nat)
    requires WellFormed(s) && t != [] && ExcusedSince(s, t[..|t| - 1], p, k) && Pops(PcOf(Run(s, t), p))
    ensures ExcusedSince(s, t, p, k)
  {
    hide Run, MayMiss, Pops;
    var before := t[..|t| - 1];
    assert before[..k] == t[..k];
    forall j: nat | k <= j <= |t| ensures Pops(PcOf(Run(s, t[..j]), p)) {
      if j == |t| { assert t[..j] == t; } else { assert before[..j] == t[..j]; }
    }
  }

  lemma {:induction false} ExcuseIsReal<T>(s: State<T>, t: seq<(Tid, Action<T>)>, p: Tid)
    requires WellFormed(s) && s.excused == {} && p in Run(s, t).excused
    ensures exists k: nat :: ExcusedSince(s, t, p, k)
    decreases |t|
  {
    hide *;
    RunUnfolds(s, t);
    if t == [] {
      assert false;
    } else {
      var (q, a) := t[|t| - 1];
      ExcuseStep(Run(s, t[..|t| - 1]), q, a, p);
      if MayMiss(Run(s, t)) {
        ExcusedNow(s, t, p);
      } else {
        ExcuseIsReal(s, t[..|t| - 1], p);
        var k: nat :| ExcusedSince(s, t[..|t| - 1], p, k);
        ExcusedStill(s, t, p, k);
      }
    }
  }

  lemma ExcuseStep<T>(s: State<T>, p: Tid, a: Action<T>, q: Tid)
    requires WellFormed(s) && q in Next(s, p, a).excused
    ensures Pops(PcOf(Next(s, p, a), q))
    ensures MayMiss(Next(s, p, a)) || (q in s.excused && Pops(PcOf(s, q)))
  {
    MissIsOfParts(Move(s, p, a), Next(s, p, a));
    hide Move, MayMiss;
  }

  lemma MissIsOfParts<T>(s: State<T>, s': State<T>)
    requires s'.ring == s.ring && s'.list == s.list && s'.pcs == s.pcs
    ensures MayMiss(s') <==> MayMiss(s)
  {
    forall q: Tid ensures StageOf(s', q) == StageOf(s, q) {
    }
    hide RingStage, ListStage;
  }

  /**
    The meaning of a false `pop`: at some moment of the call both parts were empty, or a push had put
    its value in and not returned.
   */
  lemma FalsePopMeaning<T>(size: nat, blank: T, t: seq<(Tid, Action<T>)>, p: Tid)
    requires ValidSize(size) && size >= 2
    requires StageOf(Run(Init(size, blank), t), p).Missed?
    ensures exists k: nat :: ExcusedSince(Init(size, blank), t, p, k)
  {
    hide Run, PartsInv, Ring.Init, List.Init, RingStage, Pops, MayMiss;
    InitInv(size, blank);
    RunKeepsInv(Init(size, blank), t);
    var s := Run(Init(size, blank), t);
    assert MissInv(s, p);
    ListLast(s.list, p);
    MissedAtList(s, p);
    ExcuseIsReal(Init(size, blank), t, p);
  }

  lemma MissedAtList<T>(s: State<T>, p: Tid)
    requires PartsInv(s) && StageOf(s, p).Missed?
    ensures PcOf(s, p).ListPop? && ListStage(s.list, p).Missed?
  {
    assert Linked(s, p);
    hide RingStage, ListStage, Ring.Inv, List.Inv;
  }
}
