/**
  Calls of the overflow queue that are left alone: they go through the ring and, if need be, the
  linked queue, and come to an end with the answer of a queue of both parts.
 */
module OverflowCalls {
  import opened Common
  import opened RingIndex
  import opened OverflowRuns
  import RingCalls = BoundedRingCalls
  import ListCalls = LinkedQueueCalls

  /** The call is about to answer. */
  predicate Answering<T>(s: State<T>, p: Tid) {
    var r, l := Ring.PcOf(s.ring, p), List.PcOf(s.list, p);
    match PcOf(s, p)
    case Idle => false
    case RingPush(_) => r == Ring.PushEnd(true)
    case ListPush(_) => l.PushEnd?
    case RingPop => r.PopEnd? && r.result.Some?
    case ListPop => l.PopEnd?
  }

  /** `p` alone goes on until its call is about to answer. */
  function Solo<T>(s: State<T>, p: Tid, spurious: seq<bool>): (s': State<T>)
    requires WellFormed(s)
    ensures WellFormed(s')
    decreases |spurious|
  {
    if spurious == [] || Answering(s, p) then s else Solo(Move(s, p, Step(spurious[0])), p, spurious[1..])
  }

  /** The most steps before the answer, if no exchange fails spuriously. */
  function Rank<T>(s: State<T>, p: Tid): nat {
    match PcOf(s, p)
    case Idle => 0
    case RingPush(_) => 20 + RingCalls.PushRank(s.ring, p)
    case ListPush(_) => ListCalls.PushRank(s.list, p)
    case RingPop => 20 + RingCalls.PopRank(s.ring, p)
    case ListPop => ListCalls.PopRank(s.list, p)
  }

  /** In the part that the call is at, the thread is in the call of that part. */
  ghost predicate InPart<T>(s: State<T>, p: Tid) {
    var r, l := Ring.PcOf(s.ring, p), List.PcOf(s.list, p);
    match PcOf(s, p)
    case Idle => r.Idle? && l.Idle?
    case RingPush(v) => (RingCalls.Pushes(r) || r.PushEnd?) && l.Idle?
    case ListPush(v) => r.Idle? && ListCalls.Pushes(l)
    case RingPop => (RingCalls.Pops(r) || r.PopEnd?) && l.Idle?
    case ListPop => r.Idle? && ListCalls.Pops(l)
  }

  lemma LinkedInPart<T>(s: State<T>, p: Tid)
    requires Linked(s, p)
    ensures InPart(s, p)
  {
  }

  // ----- one step ------------------------------------------------------------------------------------

  /** The answer that a lone `pop` comes to: from the ring if it has anything, else from the linked queue. */
  ghost function PopAnswer<T>(s: State<T>, p: Tid): Option<T>
    requires Ring.CountersInv(s.ring)
  {
    if PcOf(s, p).RingPop? then
      var r := RingCalls.PopOutcome(s.ring, p).0;
      if r.Some? then r else if List.Abs(s.list) == [] then None else Some(List.Abs(s.list)[0])
    else ListCalls.PopOutcome(s.list, p).0
  }

  /** What a lone call leaves in the ring and in the linked queue. */
  ghost function Leaves<T>(s: State<T>, p: Tid): (seq<T>, seq<T>)
    requires Ring.CountersInv(s.ring)
  {
    var ring, list := Ring.Abs(s.ring), List.Abs(s.list);
    match PcOf(s, p)
    case Idle => (ring, list)
    case RingPush(v) =>
      var o := RingCalls.PushOutcome(s.ring, p);
      (o.1, if o.0 then list else list + [v])
    case ListPush(_) => (ring, ListCalls.PushOutcome(s.list, p))
    case RingPop =>
      var o := RingCalls.PopOutcome(s.ring, p);
      (o.1, if o.0.Some? || list == [] then list else list[1..])
    case ListPop => (ring, ListCalls.PopOutcome(s.list, p).1)
  }

  /** A push or a pop that has not answered. */
  predicate Calling<T>(s: State<T>, p: Tid) { !PcOf(s, p).Idle? && !Answering(s, p) }

  ghost predicate Nearer<T>(s: State<T>, s': State<T>, p: Tid, spurious: bool)
    requires Ring.CountersInv(s.ring)
  {
    && Ring.CountersInv(s'.ring) && RingCalls.Undisturbed(s'.ring, p)
    && !PcOf(s', p).Idle? && (Pops(PcOf(s', p)) <==> Pops(PcOf(s, p)))
    && (Pops(PcOf(s, p)) ==> PopAnswer(s', p) == PopAnswer(s, p)) && Leaves(s', p) == Leaves(s, p)
    && (spurious || Rank(s', p) < Rank(s, p))
  }

  lemma RingPushNears<T>(s: State<T>, p: Tid, spurious: bool)
    requires PartsInv(s) && Ring.CountersInv(s.ring) && RingCalls.Undisturbed(s.ring, p)
    requires PcOf(s, p).RingPush? && RingCalls.Pushes(Ring.PcOf(s.ring, p))
    ensures Nearer(s, Move(s, p, Step(spurious)), p, spurious)
  {
    RingCalls.SoloPushStep(s.ring, p, spurious);
    hide Ring.Next, Ring.Inv, List.Inv, Linked, RingCalls.PushRank, RingCalls.Undisturbed, Ring.CountersInv;
  }

  lemma RingPopNears<T>(s: State<T>, p: Tid, spurious: bool)
    requires PartsInv(s) && Ring.CountersInv(s.ring) && RingCalls.Undisturbed(s.ring, p)
    requires PcOf(s, p).RingPop? && RingCalls.Pops(Ring.PcOf(s.ring, p))
    ensures Nearer(s, Move(s, p, Step(spurious)), p, spurious)
  {
    RingCalls.SoloPopStep(s.ring, p, spurious);
    hide Ring.Next, Ring.Inv, List.Inv, Linked, RingCalls.PopRank, RingCalls.Undisturbed, Ring.CountersInv;
    hide RingCalls.PopOutcome;
  }

  /** At the linked queue, before the end of the call, a step is one access of that queue. */
  lemma ListMoves<T>(s: State<T>, p: Tid, spurious: bool)
    requires WellFormed(s) && (PcOf(s, p).ListPush? || PcOf(s, p).ListPop?) && Calling(s, p) && InPart(s, p)
    ensures Move(s, p, Step(spurious)) == s.(list := List.Next(s.list, p, List.Step(spurious)))
  {
    hide List.Next;
  }

  lemma ListPushNears<T>(s: State<T>, p: Tid, spurious: bool)
    requires PartsInv(s) && Ring.CountersInv(s.ring) && RingCalls.Undisturbed(s.ring, p)
    requires PcOf(s, p).ListPush? && Calling(s, p)
    ensures Nearer(s, Move(s, p, Step(spurious)), p, spurious)
  {
    hide Move, List.Next, Linked, RingCalls.Undisturbed, Ring.CountersInv, Ring.Abs, List.Abs, PopAnswer;
    hide ListCalls.PushRank, ListCalls.PushOutcome, Ring.Inv, List.Inv;
    IsInPart(s, p);
    ListMoves(s, p, spurious);
    ListCalls.PushNears(s.list, p, spurious);
  }

  lemma ListPopNears<T>(s: State<T>, p: Tid, spurious: bool)
    requires PartsInv(s) && Ring.CountersInv(s.ring) && RingCalls.Undisturbed(s.ring, p)
    requires PcOf(s, p).ListPop? && Calling(s, p)
    ensures Nearer(s, Move(s, p, Step(spurious)), p, spurious)
  {
    hide Move, List.Next, Linked, RingCalls.Undisturbed, Ring.CountersInv, Ring.Abs, List.Abs;
    hide ListCalls.PopRank, ListCalls.PopOutcome, Ring.Inv, List.Inv;
    IsInPart(s, p);
    ListMoves(s, p, spurious);
    ListCalls.PopNears(s.list, p, spurious);
  }

  lemma IsInPart<T>(s: State<T>, p: Tid)
    requires PartsInv(s)
    ensures InPart(s, p) && WellFormed(s)
  {
    assert Linked(s, p);
    LinkedInPart(s, p);
  }

  /** The ring has refused: the call goes on to the linked queue. */
  lemma PushGoesOn<T>(s: State<T>, p: Tid, spurious: bool)
    requires PartsInv(s) && Ring.CountersInv(s.ring) && RingCalls.Undisturbed(s.ring, p) && Calling(s, p)
    requires PcOf(s, p).RingPush? && Ring.PcOf(s.ring, p).PushEnd?
    ensures Nearer(s, Move(s, p, Step(spurious)), p, spurious)
  {
    hide Ring.Next, List.Next, PartsInv, RingCalls.Undisturbed, Ring.CountersInv, List.Abs, Ring.Abs, PopAnswer;
    hide RingCalls.PushRank;
    IsInPart(s, p);
    RingReturnsFrom(s.ring, p, spurious);
    ListCalls.PushStarts(s.list, p, PcOf(s, p).v);
  }

  /** The ring has missed. */
  lemma PopGoesOn<T>(s: State<T>, p: Tid, spurious: bool)
    requires PartsInv(s) && Ring.CountersInv(s.ring) && RingCalls.Undisturbed(s.ring, p) && Calling(s, p)
    requires PcOf(s, p).RingPop? && Ring.PcOf(s.ring, p).PopEnd?
    ensures Nearer(s, Move(s, p, Step(spurious)), p, spurious)
  {
    hide Ring.Next, List.Next, PartsInv, RingCalls.Undisturbed, Ring.CountersInv, List.Abs, Ring.Abs;
    hide RingCalls.PopRank;
    IsInPart(s, p);
    RingReturnsFrom(s.ring, p, spurious);
    ListCalls.PopStarts(s.list, p);
  }

  lemma RingReturnsFrom<T>(s: Ring.State<T>, p: Tid, spurious: bool)
    requires Ring.WellFormed(s) && Ring.CountersInv(s) && RingCalls.Undisturbed(s, p)
    requires RingCalls.Ended(Ring.PcOf(s, p))
    ensures var s' := Ring.Next(s, p, Ring.Step(spurious));
      && Ring.CountersInv(s') && RingCalls.Undisturbed(s', p) && Ring.Abs(s') == Ring.Abs(s)
  {
    Ring.StaysApart(s, p, Ring.Step(spurious));
    hide Slot, BitAnd;
  }

  lemma CallNears<T>(s: State<T>, p: Tid, spurious: bool)
    requires PartsInv(s) && Ring.CountersInv(s.ring) && RingCalls.Undisturbed(s.ring, p) && Calling(s, p)
    ensures PartsInv(Move(s, p, Step(spurious))) && Nearer(s, Move(s, p, Step(spurious)), p, spurious)
  {
    MoveIsBagStep(s, p, Step(spurious));
    assert Linked(s, p);
    LinkedInPart(s, p);
    hide Move, Ring.Inv, List.Inv, Linked, Nearer, Rank, RingStage, ListStage, RingCalls.Undisturbed, BagStep;
    match PcOf(s, p)
    case RingPush(_) =>
      if Ring.PcOf(s.ring, p).PushEnd? { PushGoesOn(s, p, spurious); } else { RingPushNears(s, p, spurious); }
    case RingPop =>
      if Ring.PcOf(s.ring, p).PopEnd? { PopGoesOn(s, p, spurious); } else { RingPopNears(s, p, spurious); }
    case ListPush(_) => ListPushNears(s, p, spurious);
    case ListPop => ListPopNears(s, p, spurious);
    case Idle =>
  }

  // ----- to the end ---------------------------------------------------------------------------------------

  lemma AnswerLeaves<T>(s: State<T>, p: Tid)
    requires PartsInv(s) && Ring.CountersInv(s.ring) && Answering(s, p)
    ensures Leaves(s, p) == (Ring.Abs(s.ring), List.Abs(s.list))
  {
    hide PartsInv, Ring.Abs, List.Abs, Ring.CountersInv;
  }

  lemma RankBound<T>(s: State<T>, p: Tid)
    requires PartsInv(s) && Ring.CountersInv(s.ring)
    ensures Rank(s, p) <= 26 && (Calling(s, p) ==> Rank(s, p) > 0)
  {
    assert Linked(s, p);
    LinkedInPart(s, p);
    RingCalls.PushBounds(s.ring, p);
    RingCalls.PopBounds(s.ring, p);
    ListCalls.PushBounds(s.list, p);
    ListCalls.PopBounds(s.list, p);
    hide Ring.Inv, List.Inv, Linked, RingCalls.PushRank, RingCalls.PopRank, ListCalls.PushRank, ListCalls.PopRank;
    hide Ring.CountersInv;
  }

  /**
    A call left alone at any of its accesses, no other thread being inside an exchange it has won in
    the ring, comes to its answer, however many of its own exchanges fail spuriously before.
   */
  lemma {:induction false} LoneCall<T>(s: State<T>, p: Tid, spurious: seq<bool>, n: nat)
    requires WellFormed(s) && PartsInv(s) && Ring.CountersInv(s.ring) && RingCalls.Undisturbed(s.ring, p)
    requires !PcOf(s, p).Idle? && Steady(spurious, n) && (n >= 26 || |spurious| == n >= Rank(s, p))
    ensures var s' := Solo(s, p, spurious);
      && PartsInv(s') && Ring.CountersInv(s'.ring) && Answering(s', p)
      && (Ring.Abs(s'.ring), List.Abs(s'.list)) == Leaves(s, p)
      && (Pops(PcOf(s', p)) <==> Pops(PcOf(s, p))) && (Pops(PcOf(s, p)) ==> PopAnswer(s', p) == PopAnswer(s, p))
    decreases |spurious|
  {
    hide PartsInv, Move, Rank, PopAnswer, Leaves, Ring.CountersInv, RingCalls.Undisturbed, WellFormed, Pops;
    RankBound(s, p);
    if Calling(s, p) {
      CallNears(s, p, spurious[0]);
      StillSteady(spurious, n);
      LoneCall(Move(s, p, Step(spurious[0])), p, spurious[1..], if |spurious| > n then n else n - 1);
    } else {
      AnswerLeaves(s, p);
    }
  }

  /** A whole `push` left alone puts its value at the back of the ring, or of the linked queue if the ring is full. */
  lemma LonePush<T>(s: State<T>, p: Tid, v: T, spurious: seq<bool>)
    requires WellFormed(s) && PartsInv(s) && Ring.CountersInv(s.ring) && RingCalls.Undisturbed(s.ring, p)
    requires PcOf(s, p).Idle? && Steady(spurious, 26)
    ensures var s' := Solo(Move(s, p, CallPush(v)), p, spurious); var room := |Ring.Abs(s.ring)| < s.ring.size;
      && PartsInv(s') && Ring.CountersInv(s'.ring) && Answering(s', p) && !Pops(PcOf(s', p))
      && Ring.Abs(s'.ring) == (if room then Ring.Abs(s.ring) + [v] else Ring.Abs(s.ring))
      && List.Abs(s'.list) == if room then List.Abs(s.list) else List.Abs(s.list) + [v]
  {
    hide PartsInv, Move, Rank, Ring.CountersInv, RingCalls.Undisturbed, WellFormed, Leaves, PopAnswer, Solo, Answering;
    PushCallStarts(s, p, v);
    LoneCall(Move(s, p, CallPush(v)), p, spurious, 26);
  }

  /**
    A whole `pop` left alone answers false exactly when both parts are empty, and else takes the first
    value of the ring, or of the linked queue if the ring is empty.
   */
  lemma LonePop<T>(s: State<T>, p: Tid, spurious: seq<bool>)
    requires WellFormed(s) && PartsInv(s) && Ring.CountersInv(s.ring) && RingCalls.Undisturbed(s.ring, p)
    requires PcOf(s, p).Idle? && Steady(spurious, 26)
    ensures var s' := Solo(Move(s, p, CallPop), p, spurious); var ring, list := Ring.Abs(s.ring), List.Abs(s.list);
      && PartsInv(s') && Ring.CountersInv(s'.ring) && Answering(s', p) && Pops(PcOf(s', p))
      && PopAnswer(s', p) == (if ring + list == [] then None else Some((ring + list)[0]))
      && Ring.Abs(s'.ring) == (if ring == [] then [] else ring[1..])
      && List.Abs(s'.list) == if ring != [] || list == [] then list else list[1..]
  {
    hide PartsInv, Move, Rank, Ring.CountersInv, RingCalls.Undisturbed, WellFormed, Leaves, PopAnswer, Solo, Answering;
    PopCallStarts(s, p);
    LoneCall(Move(s, p, CallPop), p, spurious, 26);
  }

  lemma PushCallStarts<T>(s: State<T>, p: Tid, v: T)
    requires WellFormed(s) && PartsInv(s) && Ring.CountersInv(s.ring) && RingCalls.Undisturbed(s.ring, p)
    requires PcOf(s, p).Idle?
    ensures var s1 := Move(s, p, CallPush(v)); var ring, list := Ring.Abs(s.ring), List.Abs(s.list);
      && PartsInv(s1) && Ring.CountersInv(s1.ring) && RingCalls.Undisturbed(s1.ring, p) && PcOf(s1, p) == RingPush(v)
      && Leaves(s1, p) == if |ring| < s.ring.size then (ring + [v], list) else (ring, list + [v])
  {
    hide PartsInv, RingCalls.Undisturbed, BagStep, Ring.Next, Ring.Abs, List.Abs, Ring.CountersInv;
    MoveIsBagStep(s, p, CallPush(v));
    IsInPart(s, p);
    RingCalls.CallsLeave(s.ring, p, v);
  }

  lemma PopCallStarts<T>(s: State<T>, p: Tid)
    requires WellFormed(s) && PartsInv(s) && Ring.CountersInv(s.ring) && RingCalls.Undisturbed(s.ring, p)
    requires PcOf(s, p).Idle?
    ensures var s1 := Move(s, p, CallPop); var ring, list := Ring.Abs(s.ring), List.Abs(s.list);
      && PartsInv(s1) && Ring.CountersInv(s1.ring) && RingCalls.Undisturbed(s1.ring, p) && PcOf(s1, p) == RingPop
      && PopAnswer(s1, p) == (if ring + list == [] then None else Some((ring + list)[0]))
      && Leaves(s1, p) == (if ring == [] then [] else ring[1..], if ring != [] || list == [] then list else list[1..])
  {
    hide PartsInv, RingCalls.Undisturbed, BagStep, Ring.Next, Ring.Abs, List.Abs, Ring.CountersInv;
    MoveIsBagStep(s, p, CallPop);
    IsInPart(s, p);
    RingPopLeaves(s.ring, p);
  }

  lemma RingPopLeaves<T>(s: Ring.State<T>, p: Tid)
    requires Ring.WellFormed(s) && Ring.CountersInv(s) && RingCalls.Undisturbed(s, p) && Ring.PcOf(s, p).Idle?
    ensures var s' := Ring.Next(s, p, Ring.CallPop);
      && Ring.PcOf(s', p) == Ring.PopLoadHead && Ring.CountersInv(s') && Ring.Abs(s') == Ring.Abs(s)
      && RingCalls.Undisturbed(s', p)
  {
    Ring.StaysApart(s, p, Ring.CallPop);
    hide Slot, BitAnd;
  }
}
