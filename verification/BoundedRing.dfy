/**
  The bounded queue `TU_FiniteLockFreeQueue` (Vyukov's multi-producer
  multi-consumer ring) as a machine over its atomic accesses.

  Every load, store and compare-exchange of `push` and `pop` is one step of one
  thread; any number of threads interleave, and a weak compare-exchange may fail
  spuriously.  Besides the shared memory the state records history that the
  program does not have: the value pushed under each ticket, the thread that won
  each ticket, the values handed out, and for each cell the ticket it serves.
 */
module BoundedRing {
  import opened Common
  import opened RingIndex

  /** One ring cell. `ticket`, `full` and `owner` are history. */
  datatype Cell<T> = Cell(sequence: nat, data: T, ticket: nat, full: bool, owner: Option<Tid>)

  /** Where a thread stands; the fields are its local variables. */
  datatype Pc<T> =
    | Idle
    | PushLoadTail(v: T)
    | PushLoadSeq(v: T, t: nat)
    | PushCasTail(v: T, t: nat)
    | PushWrite(v: T, t: nat)
    | PushPublish(v: T, t: nat)
    | PushEnd(ok: bool)
    | PopLoadHead
    | PopLoadSeq(h: nat)
    | PopCasHead(h: nat)
    | PopRead(h: nat)
    | PopRelease(h: nat, r: T)
    | PopEnd(result: Option<T>)

  datatype State<T> = State(
    size: nat,
    cells: seq<Cell<T>>,
    head: nat,
    tail: nat,
    pcs: map<Tid, Pc<T>>,
    pushed: seq<T>,          // value pushed under each tail ticket
    pushers: seq<Tid>,       // winner of each tail ticket
    poppers: seq<Tid>,       // winner of each head ticket
    returned: map<nat, T>)   // value handed out under each head ticket

  /** What the scheduler picks: a call, or the next access of a running call. */
  datatype Action<T> = CallPush(v: T) | CallPop | Step(spurious: bool)

  function PcOf<T>(s: State<T>, p: Tid): Pc<T> {
    if p in s.pcs then s.pcs[p] else Idle
  }

  function Goto<T>(s: State<T>, p: Tid, pc: Pc<T>): State<T> {
    s.(pcs := s.pcs[p := pc])
  }

  predicate WellFormed<T>(s: State<T>) {
    ValidSize(s.size) && |s.cells| == s.size
  }

  function CellOf<T>(s: State<T>, ticket: nat): Cell<T>
    requires WellFormed(s)
  {
    s.cells[Slot(ticket, s.size)]
  }

  function SetCell<T>(s: State<T>, ticket: nat, c: Cell<T>): (s': State<T>)
    requires WellFormed(s)
    ensures WellFormed(s')
  {
    s.(cells := s.cells[Slot(ticket, s.size) := c])
  }

  /** The constructor: cell `i` starts with sequence `i`, both tickets at zero. */
  function Init<T>(size: nat, blank: T): State<T> {
    State(size, seq(size, i requires 0 <= i < size => Cell(i, blank, i, false, None)),
          0, 0, map[], [], [], [], map[])
  }

  /** One step of thread `p`; an action that does not apply changes nothing. */
  function Next<T>(s: State<T>, p: Tid, a: Action<T>): (s': State<T>)
    requires WellFormed(s)
    ensures WellFormed(s') && s'.size == s.size
  {
    match a
    case CallPush(v) => if PcOf(s, p).Idle? then Goto(s, p, PushLoadTail(v)) else s
    case CallPop => if PcOf(s, p).Idle? then Goto(s, p, PopLoadHead) else s
    case Step(spurious) =>
      match PcOf(s, p)
      case Idle => s
      case PushLoadTail(v) => Goto(s, p, PushLoadSeq(v, s.tail))
      case PushLoadSeq(v, t) => PushTest(s, p, v, t)
      case PushCasTail(v, t) => PushCas(s, p, v, t, spurious)
      case PushWrite(v, t) =>
        Goto(SetCell(s, t, CellOf(s, t).(data := v)), p, PushPublish(v, t))
      case PushPublish(v, t) =>
        Goto(SetCell(s, t, CellOf(s, t).(sequence := t + 1, full := true, owner := None)), p, PushEnd(true))
      case PushEnd(_) => Goto(s, p, Idle)
      case PopLoadHead => Goto(s, p, PopLoadSeq(s.head))
      case PopLoadSeq(h) => PopTest(s, p, h)
      case PopCasHead(h) => PopCas(s, p, h, spurious)
      case PopRead(h) => Goto(s, p, PopRelease(h, CellOf(s, h).data))
      case PopRelease(h, r) =>
        var c := CellOf(s, h).(sequence := h + s.size, ticket := h + s.size, full := false, owner := None);
        Goto(SetCell(s, h, c), p, PopEnd(Some(r))).(returned := s.returned[h := r])
      case PopEnd(_) => Goto(s, p, Idle)
  }

  /** Sequence load of `push` and the three-way test on its difference to `t`. */
  function PushTest<T>(s: State<T>, p: Tid, v: T, t: nat): State<T>
    requires WellFormed(s)
  {
    var diff := CellOf(s, t).sequence - t;
    if diff == 0 then Goto(s, p, PushCasTail(v, t))
    else if diff < 0 then Goto(s, p, PushEnd(false))
    else Goto(s, p, PushLoadTail(v))
  }

  /** Compare-exchange on `tail`; a failure leaves the current tail in `t`. */
  function PushCas<T>(s: State<T>, p: Tid, v: T, t: nat, spurious: bool): State<T>
    requires WellFormed(s)
  {
    if spurious || s.tail != t then Goto(s, p, PushLoadSeq(v, s.tail))
    else
      Goto(SetCell(s, t, CellOf(s, t).(owner := Some(p))), p, PushWrite(v, t)).(
        tail := t + 1, pushed := s.pushed + [v], pushers := s.pushers + [p])
  }

  function PopTest<T>(s: State<T>, p: Tid, h: nat): State<T>
    requires WellFormed(s)
  {
    var diff := CellOf(s, h).sequence - (h + 1);
    if diff == 0 then Goto(s, p, PopCasHead(h))
    else if diff < 0 then Goto(s, p, PopEnd(None))
    else Goto(s, p, PopLoadHead)
  }

  function PopCas<T>(s: State<T>, p: Tid, h: nat, spurious: bool): State<T>
    requires WellFormed(s)
  {
    if spurious || s.head != h then Goto(s, p, PopLoadSeq(s.head))
    else
      Goto(SetCell(s, h, CellOf(s, h).(owner := Some(p))), p, PopRead(h)).(
        head := h + 1, poppers := s.poppers + [p])
  }

  /** A whole run from `s`: who steps, and how. */
  function Run<T>(s: State<T>, schedule: seq<(Tid, Action<T>)>): (s': State<T>)
    requires WellFormed(s)
    ensures WellFormed(s') && s'.size == s.size
    decreases |schedule|
  {
    if schedule == [] then s
    else Run(Next(s, schedule[0].0, schedule[0].1), schedule[1..])
  }

  // ----- invariant -----------------------------------------------------------

  ghost predicate CountersInv<T>(s: State<T>) {
    && s.head <= s.tail <= s.head + s.size
    && |s.pushed| == |s.pushers| == s.tail
    && |s.poppers| == s.head
  }

  /** Cell `j` serves one ticket: it is free for that push, or full for that pop. */
  ghost predicate CellInv<T>(s: State<T>, j: nat)
    requires WellFormed(s) && j < s.size && |s.pushed| == s.tail
  {
    var c := s.cells[j];
    && Slot(c.ticket, s.size) == j
    && c.sequence == c.ticket + (if c.full then 1 else 0)
    && (!c.full ==> s.head <= c.ticket < s.head + s.size && (c.owner.Some? <==> c.ticket < s.tail))
    && (c.full ==> c.ticket < s.tail <= c.ticket + s.size && (c.owner.Some? <==> c.ticket < s.head)
                   && c.data == s.pushed[c.ticket])
  }

  ghost predicate OwnerInv<T>(s: State<T>, j: nat)
    requires WellFormed(s) && j < s.size
  {
    var c := s.cells[j];
    c.owner.Some? ==>
      var pc := PcOf(s, c.owner.value);
      if c.full then (pc.PopRead? || pc.PopRelease?) && pc.h == c.ticket
      else (pc.PushWrite? || pc.PushPublish?) && pc.t == c.ticket
  }

  ghost predicate ThreadInv<T>(s: State<T>, p: Tid)
    requires WellFormed(s) && CountersInv(s)
  {
    match PcOf(s, p)
    case PushLoadSeq(_, t) => t <= s.tail
    case PushCasTail(_, t) => t <= s.tail && t <= CellOf(s, t).ticket
    case PushWrite(v, t) => Holds(s, p, t, false) && v == s.pushed[t] && s.pushers[t] == p
    case PushPublish(v, t) => Holds(s, p, t, false) && v == s.pushed[t] == CellOf(s, t).data && s.pushers[t] == p
    case PopLoadSeq(h) => h <= s.head
    case PopCasHead(h) =>
      var c := CellOf(s, h);
      h <= s.head && (c.ticket > h || (c.ticket == h && c.full))
    case PopRead(h) => Holds(s, p, h, true) && h < s.head && s.poppers[h] == p
    case PopRelease(h, r) => Holds(s, p, h, true) && h < s.head && s.poppers[h] == p && r == s.pushed[h]
    case _ => true
  }

  ghost predicate Holds<T>(s: State<T>, p: Tid, ticket: nat, full: bool)
    requires WellFormed(s)
  {
    var c := CellOf(s, ticket);
    c.owner == Some(p) && c.ticket == ticket && c.full == full && ticket < s.tail
  }

  ghost predicate ReturnedInv<T>(s: State<T>)
    requires WellFormed(s) && |s.pushed| == s.tail && s.head <= s.tail
  {
    && (forall h <- s.returned :: h < s.head && s.returned[h] == s.pushed[h])
    && (forall h: nat | h < s.head :: h in s.returned <==> CellOf(s, h).ticket > h)
  }

  ghost predicate Inv<T>(s: State<T>) {
    && WellFormed(s) && s.size >= 2
    && CountersInv(s)
    && (forall j: nat | j < s.size :: CellInv(s, j) && OwnerInv(s, j))
    && (forall p: Tid :: ThreadInv(s, p))
    && ReturnedInv(s)
  }

  // ----- every step keeps the invariant ---------------------------------------

  lemma InitInv<T>(size: nat, blank: T)
    requires ValidSize(size) && size >= 2
    ensures Inv(Init(size, blank))
  {
    var s := Init(size, blank);
    forall j: nat | j < size ensures CellInv(s, j) && OwnerInv(s, j) {
      SmallSlot(j, size);
    }
  }

  ghost predicate Owning<T>(pc: Pc<T>) {
    pc.PushWrite? || pc.PushPublish? || pc.PopRead? || pc.PopRelease?
  }

  /** Moves of a thread that owns no cell, touching only its own locals. */
  lemma GotoKeepsInv<T>(s: State<T>, p: Tid, pc: Pc<T>)
    requires Inv(s) && !Owning(PcOf(s, p)) && !Owning(pc)
    requires ThreadInv(Goto(s, p, pc), p)
    ensures Inv(Goto(s, p, pc))
  {
    hide Slot, BitAnd;
    var s' := Goto(s, p, pc);
    forall j: nat | j < s.size ensures CellInv(s', j) && OwnerInv(s', j) {
      assert CellInv(s, j) && OwnerInv(s, j);
    }
    forall q: Tid ensures ThreadInv(s', q) {
      assert ThreadInv(s, q);
    }
  }

  /** The ticket of the cell that a stale counter selects is never below it by a lap. */
  lemma CellBounds<T>(s: State<T>, t: nat)
    requires Inv(s)
    ensures var c := CellOf(s, t);
      && CellInv(s, Slot(t, s.size))
      && (c.ticket < t ==> c.ticket + s.size <= t)
      && (c.ticket > t ==> t + s.size <= c.ticket)
      && s.tail <= c.ticket + s.size
      && c.ticket < s.tail + s.size
  {
    NextLap(t, s.size);
    var c := CellOf(s, t);
    assert CellInv(s, Slot(t, s.size));
    if c.ticket < t { SameSlot(c.ticket, t, s.size); }
    if t < c.ticket { SameSlot(t, c.ticket, s.size); }
  }

  lemma PushTestKeepsInv<T>(s: State<T>, p: Tid, v: T, t: nat)
    requires Inv(s) && PcOf(s, p) == PushLoadSeq(v, t)
    ensures Inv(PushTest(s, p, v, t))
  {
    assert ThreadInv(s, p);
    CellBounds(s, t);
    var diff := CellOf(s, t).sequence - t;
    if diff == 0 { GotoKeepsInv(s, p, PushCasTail(v, t)); }
    else if diff < 0 { GotoKeepsInv(s, p, PushEnd(false)); }
    else { GotoKeepsInv(s, p, PushLoadTail(v)); }
  }

  lemma PopTestKeepsInv<T>(s: State<T>, p: Tid, h: nat)
    requires Inv(s) && PcOf(s, p) == PopLoadSeq(h)
    ensures Inv(PopTest(s, p, h))
  {
    assert ThreadInv(s, p);
    CellBounds(s, h);
    var diff := CellOf(s, h).sequence - (h + 1);
    if diff == 0 { GotoKeepsInv(s, p, PopCasHead(h)); }
    else if diff < 0 { GotoKeepsInv(s, p, PopEnd(None)); }
    else { GotoKeepsInv(s, p, PopLoadHead); }
  }

  /** At a successful tail exchange the cell is free and serves exactly this ticket. */
  lemma PushWins<T>(s: State<T>, p: Tid, v: T, t: nat)
    requires Inv(s) && PcOf(s, p) == PushCasTail(v, t) && s.tail == t
    ensures var c := CellOf(s, t); c.ticket == t && !c.full && c.owner.None? && t < s.head + s.size
  {
    assert ThreadInv(s, p);
    CellBounds(s, t);
  }

  /** The cell of the ticket won gets an owner; the others are unaffected. */
  lemma PushWinKeepsCell<T>(s: State<T>, p: Tid, v: T, t: nat, j: nat)
    requires Inv(s) && PcOf(s, p) == PushCasTail(v, t) && s.tail == t && j < s.size
    ensures var s' := PushCas(s, p, v, t, false); CellInv(s', j) && OwnerInv(s', j)
  {
    PushWins(s, p, v, t);
    assert CellInv(s, j) && OwnerInv(s, j);
    NextLap(s.cells[j].ticket, s.size);
    hide Slot, BitAnd, ThreadInv, ReturnedInv;
  }

  lemma PushWinKeepsThread<T>(s: State<T>, p: Tid, v: T, t: nat, q: Tid)
    requires Inv(s) && PcOf(s, p) == PushCasTail(v, t) && s.tail == t
    ensures var s' := PushCas(s, p, v, t, false); CountersInv(s') && ThreadInv(s', q)
  {
    PushWins(s, p, v, t);
    assert ThreadInv(s, q);
    hide Slot, BitAnd, CellInv, OwnerInv, ReturnedInv;
  }

  lemma PushCasKeepsInv<T>(s: State<T>, p: Tid, v: T, t: nat, spurious: bool)
    requires Inv(s) && PcOf(s, p) == PushCasTail(v, t)
    ensures Inv(PushCas(s, p, v, t, spurious))
  {
    hide Slot, BitAnd, CellInv, OwnerInv, ThreadInv;
    var s' := PushCas(s, p, v, t, spurious);
    if spurious || s.tail != t {
      StalePushKeepsInv(s, p, v, t);
    } else {
      PushWins(s, p, v, t);
      forall j: nat | j < s.size ensures CellInv(s', j) && OwnerInv(s', j) {
        PushWinKeepsCell(s, p, v, t, j);
      }
      forall q: Tid ensures ThreadInv(s', q) {
        PushWinKeepsThread(s, p, v, t, q);
      }
      assert ReturnedInv(s');
    }
  }

  lemma StalePushKeepsInv<T>(s: State<T>, p: Tid, v: T, t: nat)
    requires Inv(s) && PcOf(s, p) == PushCasTail(v, t)
    ensures Inv(Goto(s, p, PushLoadSeq(v, s.tail)))
  {
    GotoKeepsInv(s, p, PushLoadSeq(v, s.tail));
  }

  /** At a successful head exchange the cell is full and serves exactly this ticket. */
  lemma PopWins<T>(s: State<T>, p: Tid, h: nat)
    requires Inv(s) && PcOf(s, p) == PopCasHead(h) && s.head == h
    ensures var c := CellOf(s, h); c.ticket == h && c.full && c.owner.None? && h < s.tail
  {
    assert ThreadInv(s, p);
    CellBounds(s, h);
  }

  lemma PopCasKeepsInv<T>(s: State<T>, p: Tid, h: nat, spurious: bool)
    requires Inv(s) && PcOf(s, p) == PopCasHead(h)
    ensures Inv(PopCas(s, p, h, spurious))
  {
    hide Slot, BitAnd;
    var s' := PopCas(s, p, h, spurious);
    assert ThreadInv(s, p);
    if spurious || s.head != h {
      GotoKeepsInv(s, p, PopLoadSeq(s.head));
    } else {
      PopWins(s, p, h);
      forall j: nat | j < s.size ensures CellInv(s', j) && OwnerInv(s', j) {
        assert CellInv(s, j) && OwnerInv(s, j);
      }
      forall q: Tid ensures ThreadInv(s', q) {
        assert ThreadInv(s, q);
      }
    }
  }

  /** A step of `p` on the cell it owns: no other thread's knowledge is affected. */
  lemma OwnedStepKeepsInv<T>(s: State<T>, p: Tid, ticket: nat, c: Cell<T>, pc: Pc<T>)
    requires Inv(s) && Holds(s, p, ticket, CellOf(s, ticket).full)
    requires c.ticket == ticket && c.sequence == CellOf(s, ticket).sequence && c.owner == Some(p)
    requires c.full == CellOf(s, ticket).full && (c.full ==> c.data == CellOf(s, ticket).data)
    requires ThreadInv(Goto(SetCell(s, ticket, c), p, pc), p)
    requires if c.full then (pc.PopRead? || pc.PopRelease?) && pc.h == ticket
             else (pc.PushWrite? || pc.PushPublish?) && pc.t == ticket
    ensures Inv(Goto(SetCell(s, ticket, c), p, pc))
  {
    hide Slot, BitAnd, ThreadInv, OwnerInv, CellInv;
    var s' := Goto(SetCell(s, ticket, c), p, pc);
    forall j: nat | j < s.size ensures CellInv(s', j) && OwnerInv(s', j) {
      OwnedStepKeepsCell(s, p, ticket, c, pc, j);
    }
    forall q: Tid ensures ThreadInv(s', q) {
      OwnedStepKeepsThread(s, p, ticket, c, pc, q);
    }
  }

  lemma OwnedStepKeepsCell<T>(s: State<T>, p: Tid, ticket: nat, c: Cell<T>, pc: Pc<T>, j: nat)
    requires Inv(s) && j < s.size && Holds(s, p, ticket, CellOf(s, ticket).full)
    requires c.ticket == ticket && c.sequence == CellOf(s, ticket).sequence && c.owner == Some(p)
    requires c.full == CellOf(s, ticket).full && (c.full ==> c.data == CellOf(s, ticket).data)
    requires if c.full then (pc.PopRead? || pc.PopRelease?) && pc.h == ticket
             else (pc.PushWrite? || pc.PushPublish?) && pc.t == ticket
    ensures var s' := Goto(SetCell(s, ticket, c), p, pc); CellInv(s', j) && OwnerInv(s', j)
  {
    var k := Slot(ticket, s.size);
    assert CellInv(s, k) && OwnerInv(s, k) && CellInv(s, j) && OwnerInv(s, j);
    if j != k && s.cells[j].owner == Some(p) {
      assert false;
    }
    hide Slot, BitAnd, ThreadInv, ReturnedInv;
  }

  lemma OwnedStepKeepsThread<T>(s: State<T>, p: Tid, ticket: nat, c: Cell<T>, pc: Pc<T>, q: Tid)
    requires Inv(s) && Holds(s, p, ticket, CellOf(s, ticket).full)
    requires c.ticket == ticket && c.sequence == CellOf(s, ticket).sequence && c.owner == Some(p)
    requires c.full == CellOf(s, ticket).full && (c.full ==> c.data == CellOf(s, ticket).data)
    requires ThreadInv(Goto(SetCell(s, ticket, c), p, pc), p)
    ensures ThreadInv(Goto(SetCell(s, ticket, c), p, pc), q)
  {
    assert ThreadInv(s, q);
    hide Slot, BitAnd, CellInv, OwnerInv, ReturnedInv;
  }

  lemma PublishKeepsInv<T>(s: State<T>, p: Tid, v: T, t: nat)
    requires Inv(s) && PcOf(s, p) == PushPublish(v, t)
    ensures Inv(Next(s, p, Step(false)))
  {
    hide Slot, BitAnd;
    var s' := Next(s, p, Step(false));
    var k := Slot(t, s.size);
    assert ThreadInv(s, p) && CellInv(s, k) && OwnerInv(s, k);
    forall j: nat | j < s.size ensures CellInv(s', j) && OwnerInv(s', j) {
      assert CellInv(s, j) && OwnerInv(s, j);
    }
    forall q: Tid ensures ThreadInv(s', q) {
      assert ThreadInv(s, q);
    }
  }

  lemma ReleaseKeepsInv<T>(s: State<T>, p: Tid, h: nat, r: T)
    requires Inv(s) && PcOf(s, p) == PopRelease(h, r)
    ensures Inv(Next(s, p, Step(false)))
    ensures h < s.head <= s.tail == |s.pushed| && h < |s.poppers| && s.poppers[h] == p
    ensures h !in s.returned && r == s.pushed[h]
  {
    hide Slot, BitAnd;
    var s' := Next(s, p, Step(false));
    var k := Slot(h, s.size);
    assert ThreadInv(s, p) && CellInv(s, k) && OwnerInv(s, k);
    NextLap(h, s.size);
    forall j: nat | j < s.size ensures CellInv(s', j) && OwnerInv(s', j) {
      assert CellInv(s, j) && OwnerInv(s, j);
    }
    forall q: Tid ensures ThreadInv(s', q) {
      assert ThreadInv(s, q);
    }
    forall i: nat | i < s'.head ensures i in s'.returned <==> CellOf(s', i).ticket > i {
      if Slot(i, s.size) == k {
        if i < h { SameSlot(i, h, s.size); }
        if h < i { SameSlot(h, i, s.size); }
      }
    }
  }

  lemma NextKeepsInv<T>(s: State<T>, p: Tid, a: Action<T>)
    requires Inv(s)
    ensures Inv(Next(s, p, a))
  {
    hide Slot, BitAnd;
    assert ThreadInv(s, p);
    match a
    case CallPush(v) => if PcOf(s, p).Idle? { GotoKeepsInv(s, p, PushLoadTail(v)); }
    case CallPop => if PcOf(s, p).Idle? { GotoKeepsInv(s, p, PopLoadHead); }
    case Step(spurious) =>
      match PcOf(s, p)
      case Idle =>
      case PushLoadTail(v) => GotoKeepsInv(s, p, PushLoadSeq(v, s.tail));
      case PushLoadSeq(v, t) => PushTestKeepsInv(s, p, v, t);
      case PushCasTail(v, t) => PushCasKeepsInv(s, p, v, t, spurious);
      case PushWrite(v, t) => OwnedStepKeepsInv(s, p, t, CellOf(s, t).(data := v), PushPublish(v, t));
      case PushPublish(v, t) => PublishKeepsInv(s, p, v, t);
      case PushEnd(_) => GotoKeepsInv(s, p, Idle);
      case PopLoadHead => GotoKeepsInv(s, p, PopLoadSeq(s.head));
      case PopLoadSeq(h) => PopTestKeepsInv(s, p, h);
      case PopCasHead(h) => PopCasKeepsInv(s, p, h, spurious);
      case PopRead(h) =>
        var c := CellOf(s, h);
        assert CellInv(s, Slot(h, s.size));
        assert s.cells[Slot(h, s.size) := c] == s.cells;
        OwnedStepKeepsInv(s, p, h, c, PopRelease(h, c.data));
      case PopRelease(h, r) => ReleaseKeepsInv(s, p, h, r);
      case PopEnd(_) => GotoKeepsInv(s, p, Idle);
  }

  lemma {:induction false} RunKeepsInv<T>(s: State<T>, schedule: seq<(Tid, Action<T>)>)
    requires Inv(s)
    ensures Inv(Run(s, schedule))
    decreases |schedule|
  {
    if schedule == [] {
    } else {
      NextKeepsInv(s, schedule[0].0, schedule[0].1);
      RunKeepsInv(Next(s, schedule[0].0, schedule[0].1), schedule[1..]);
    }
  }

  // ----- what the invariant means ----------------------------------------------

  /** The queue the ring stands for: pushed under a won ticket, not yet claimed by a pop. */
  function Abs<T>(s: State<T>): seq<T>
    requires CountersInv(s)
  {
    s.pushed[s.head..]
  }

  /**
    Safety of whole runs from the constructor, for every schedule: the counters stay
    within one lap, and a pop that won ticket `h` returns the value pushed under `h`.
   */
  lemma TicketFifo<T>(size: nat, blank: T, schedule: seq<(Tid, Action<T>)>)
    requires ValidSize(size) && size >= 2
    ensures var s := Run(Init(size, blank), schedule);
      && s.head <= s.tail <= s.head + size
      && |s.pushed| == |s.pushers| == s.tail && |s.poppers| == s.head
      && (forall h <- s.returned :: h < s.head && s.returned[h] == s.pushed[h])
  {
    InitInv(size, blank);
    RunKeepsInv(Init(size, blank), schedule);
  }

  /** What one step does to the queue it stands for. */
  ghost predicate Refines<T>(s: State<T>, p: Tid, s': State<T>)
    requires CountersInv(s) && CountersInv(s')
  {
    var pc, pc' := PcOf(s, p), PcOf(s', p);
    if pc.PushCasTail? && pc'.PushWrite? then
      && Abs(s') == Abs(s) + [pc.v] && pc' == PushWrite(pc.v, s.tail)
      && s'.pushers == s.pushers + [p] && s'.poppers == s.poppers && s'.returned == s.returned
    else if pc.PopCasHead? && pc'.PopRead? then
      && Abs(s) != [] && Abs(s') == Abs(s)[1..] && pc' == PopRead(s.head)
      && s'.poppers == s.poppers + [p] && s'.pushers == s.pushers && s'.returned == s.returned
    else
      && Abs(s') == Abs(s) && s'.pushers == s.pushers && s'.poppers == s.poppers
      && (s'.returned == s.returned ||
          (pc.PopRelease? && pc.h < s.head && pc' == PopEnd(Some(s.pushed[pc.h])) && s.poppers[pc.h] == p
           && pc.h !in s.returned && s'.returned == s.returned[pc.h := s.pushed[pc.h]]))
  }

  lemma PushCasRefines<T>(s: State<T>, p: Tid, v: T, t: nat, spurious: bool)
    requires Inv(s) && PcOf(s, p) == PushCasTail(v, t)
    ensures var s' := PushCas(s, p, v, t, spurious);
      CountersInv(s') && s.pushed <= s'.pushed && Refines(s, p, s')
  {
    PushCasKeepsInv(s, p, v, t, spurious);
    hide Slot, BitAnd, CellInv, OwnerInv, ReturnedInv, ThreadInv;
  }

  lemma PopCasRefines<T>(s: State<T>, p: Tid, h: nat, spurious: bool)
    requires Inv(s) && PcOf(s, p) == PopCasHead(h)
    ensures var s' := PopCas(s, p, h, spurious);
      CountersInv(s') && s.pushed <= s'.pushed && Refines(s, p, s')
  {
    PopCasKeepsInv(s, p, h, spurious);
    hide Slot, BitAnd, CellInv, OwnerInv, ReturnedInv, ThreadInv;
    if s.head == h { PopWins(s, p, h); }
  }

  /** Steps that win no ticket and release no cell leave the queue and the history alone. */
  lemma OtherStepRefines<T>(s: State<T>, p: Tid, a: Action<T>)
    requires Inv(s) && Inv(Next(s, p, a))
    requires var pc := PcOf(s, p); !pc.PushCasTail? && !pc.PopCasHead? && !pc.PopRelease?
    ensures Refines(s, p, Next(s, p, a)) && Next(s, p, a).pushed == s.pushed
  {
    hide Slot, BitAnd, CellInv, OwnerInv, ReturnedInv, ThreadInv, PushCas, PopCas;
  }

  /**
    The machine refines a queue: winning a tail ticket appends the pushed value, winning
    a head ticket removes the first value, no other step changes the queue, and each
    ticket's value is handed out at most once, by the thread that won the ticket.
   */
  lemma StepRefinesQueue<T>(s: State<T>, p: Tid, a: Action<T>)
    requires Inv(s)
    ensures Inv(Next(s, p, a)) && s.pushed <= Next(s, p, a).pushed && Refines(s, p, Next(s, p, a))
  {
    NextKeepsInv(s, p, a);
    match PcOf(s, p)
    case PushCasTail(v, t) => if a.Step? { PushCasRefines(s, p, v, t, a.spurious); }
    case PopCasHead(h) => if a.Step? { PopCasRefines(s, p, h, a.spurious); }
    case PopRelease(h, r) => ReleaseKeepsInv(s, p, h, r);
    case _ => OtherStepRefines(s, p, a);
  }

  /** A published value stays in its cell until the pop that claimed it releases the cell. */
  lemma PublishedStays<T>(s: State<T>, p: Tid, a: Action<T>, ticket: nat)
    requires Inv(s) && CellOf(s, ticket).full && CellOf(s, ticket).ticket == ticket
    ensures var c := CellOf(Next(s, p, a), ticket);
      if a.Step? && PcOf(s, p).PopRelease? && PcOf(s, p).h == ticket then !c.full && c.ticket == ticket + s.size
      else c.full && c.ticket == ticket < s.tail && c.data == s.pushed[ticket] == CellOf(s, ticket).data
  {
    hide Slot, BitAnd, ReturnedInv, OwnerInv;
    assert ThreadInv(s, p) && CellInv(s, Slot(ticket, s.size));
    var pc := PcOf(s, p);
    if a.Step? && (pc.PushCasTail? || pc.PopCasHead?) {
      if pc.PushCasTail? && pc.t == s.tail { PushWins(s, p, pc.v, pc.t); }
      if pc.PopCasHead? && pc.h == s.head { PopWins(s, p, pc.h); }
    }
  }

  // ----- the meaning of false ---------------------------------------------------

  ghost predicate Publishing<T>(pc: Pc<T>, t: nat) {
    (pc.PushWrite? || pc.PushPublish?) && pc.t == t
  }

  ghost predicate Releasing<T>(pc: Pc<T>, h: nat) {
    (pc.PopRead? || pc.PopRelease?) && pc.h == h
  }

  /**
    `pop` answers false at its sequence load exactly when `head` still is its `h` and
    either no push has claimed ticket `h` or the one that did has not published.
   */
  lemma PopFalseMeaning<T>(s: State<T>, p: Tid, h: nat)
    requires Inv(s) && PcOf(s, p) == PopLoadSeq(h)
    ensures PcOf(PopTest(s, p, h), p) == PopEnd(None) <==>
      s.head == h && (s.head == s.tail || exists q: Tid :: Publishing(PcOf(s, q), h))
    ensures PcOf(PopTest(s, p, h), p) == PopLoadHead ==> s.head != h
  {
    assert ThreadInv(s, p);
    CellBounds(s, h);
    var c := CellOf(s, h);
    assert OwnerInv(s, Slot(h, s.size));
    if q: Tid :| Publishing(PcOf(s, q), h) {
      assert ThreadInv(s, q);
    } else if c.ticket == h && c.owner.Some? {
      assert !Publishing(PcOf(s, c.owner.value), h);
    }
  }

  /**
    `push` answers false at its sequence load exactly when `tail` still is its `t` and
    the pop of ticket `t - size` has not claimed the cell (the ring is full) or has
    claimed it and not yet released it.
   */
  lemma PushFalseMeaning<T>(s: State<T>, p: Tid, v: T, t: nat)
    requires Inv(s) && PcOf(s, p) == PushLoadSeq(v, t)
    ensures PcOf(PushTest(s, p, v, t), p) == PushEnd(false) <==>
      s.tail == t && (s.tail == s.head + s.size
                      || exists q: Tid :: t >= s.size && Releasing(PcOf(s, q), t - s.size))
    ensures PcOf(PushTest(s, p, v, t), p) == PushLoadTail(v) ==> s.tail != t
  {
    assert ThreadInv(s, p);
    CellBounds(s, t);
    var c := CellOf(s, t);
    assert OwnerInv(s, Slot(t, s.size));
    if t >= s.size {
      NextLap(t - s.size, s.size);
      if q: Tid :| Releasing(PcOf(s, q), t - s.size) {
        assert ThreadInv(s, q);
      } else if c.ticket == t - s.size && c.owner.Some? {
        assert !Releasing(PcOf(s, c.owner.value), t - s.size);
      }
    }
  }

  // ----- a step moves one thread ----------------------------------------------------

  ghost predicate MovesOnly<T>(s: State<T>, s': State<T>, p: Tid) {
    forall q: Tid :: q != p ==> PcOf(s', q) == PcOf(s, q)
  }

  lemma PushExchangeMovesOnly<T>(s: State<T>, p: Tid, v: T, t: nat, spurious: bool)
    requires WellFormed(s)
    ensures MovesOnly(s, PushCas(s, p, v, t, spurious), p)
  {
    hide Slot, BitAnd;
  }

  lemma PopExchangeMovesOnly<T>(s: State<T>, p: Tid, h: nat, spurious: bool)
    requires WellFormed(s)
    ensures MovesOnly(s, PopCas(s, p, h, spurious), p)
  {
    hide Slot, BitAnd;
  }

  lemma PushTestMovesOnly<T>(s: State<T>, p: Tid, v: T, t: nat)
    requires WellFormed(s)
    ensures MovesOnly(s, PushTest(s, p, v, t), p)
  {
    hide Slot, BitAnd;
  }

  lemma PopTestMovesOnly<T>(s: State<T>, p: Tid, h: nat)
    requires WellFormed(s)
    ensures MovesOnly(s, PopTest(s, p, h), p)
  {
    hide Slot, BitAnd;
  }

  lemma StaysApart<T>(s: State<T>, p: Tid, a: Action<T>)
    requires WellFormed(s)
    ensures MovesOnly(s, Next(s, p, a), p)
  {
    hide Slot, BitAnd, PushTest, PopTest, PushCas, PopCas;
    if a.Step? {
      match PcOf(s, p) {
        case PushLoadSeq(v, t) => PushTestMovesOnly(s, p, v, t);
        case PopLoadSeq(h) => PopTestMovesOnly(s, p, h);
        case PushCasTail(v, t) => PushExchangeMovesOnly(s, p, v, t, a.spurious);
        case PopCasHead(h) => PopExchangeMovesOnly(s, p, h, a.spurious);
        case _ =>
      }
    }
  }

  // ----- calls that run alone -----------------------------------------------------

  /** No thread is between winning a ticket and publishing or releasing its cell. */
  ghost predicate Quiescent<T>(s: State<T>) {
    forall q: Tid :: !Owning(PcOf(s, q))
  }

  /** `p` takes `n` consecutive steps without a spurious failure. */
  function Alone<T>(s: State<T>, p: Tid, n: nat): (s': State<T>)
    requires WellFormed(s)
    ensures WellFormed(s') && s'.size == s.size
    decreases n
  {
    if n == 0 then s else Next(Alone(s, p, n - 1), p, Step(false))
  }

  lemma {:induction false} AloneAdds<T>(s: State<T>, p: Tid, m: nat, n: nat)
    requires WellFormed(s)
    ensures Alone(Alone(s, p, m), p, n) == Alone(s, p, m + n)
  {
    hide Next;
    if n == 0 {
    } else {
      AloneAdds(s, p, m, n - 1);
    }
  }

  lemma WinPush<T>(s: State<T>, p: Tid, v: T)
    requires Inv(s) && PcOf(s, p) == PushCasTail(v, s.tail)
    ensures var s' := Next(s, p, Step(false));
      Inv(s') && Abs(s') == Abs(s) + [v] && PcOf(s', p) == PushWrite(v, s.tail)
  {
    PushCasKeepsInv(s, p, v, s.tail, false);
    hide Slot, BitAnd, CellInv, OwnerInv, ReturnedInv, ThreadInv;
  }

  /** Writing and publishing leave the queue alone. */
  lemma FillStep<T>(s: State<T>, p: Tid)
    requires Inv(s) && (PcOf(s, p).PushWrite? || PcOf(s, p).PushPublish?)
    ensures var s' := Next(s, p, Step(false)); var pc := PcOf(s, p);
      && Inv(s') && Abs(s') == Abs(s)
      && PcOf(s', p) == if pc.PushWrite? then PushPublish(pc.v, pc.t) else PushEnd(true)
  {
    NextKeepsInv(s, p, Step(false));
    hide Slot, BitAnd, CellInv, OwnerInv, ReturnedInv, ThreadInv;
  }

  /** The winner of the tail exchange completes in two more steps. */
  lemma WonPush<T>(s: State<T>, p: Tid, v: T)
    requires Inv(s) && PcOf(s, p) == PushCasTail(v, s.tail)
    ensures var s' := Alone(s, p, 3);
      Inv(s') && Abs(s') == Abs(s) + [v] && PcOf(s', p) == PushEnd(true)
  {
    WinPush(s, p, v);
    FillStep(Alone(s, p, 1), p);
    FillStep(Alone(s, p, 2), p);
    hide Slot, BitAnd, Next, CellInv, OwnerInv, ReturnedInv, ThreadInv, Abs;
  }

  lemma WinPop<T>(s: State<T>, p: Tid)
    requires Inv(s) && PcOf(s, p) == PopCasHead(s.head) && s.head < s.tail
    ensures var s' := Next(s, p, Step(false));
      Inv(s') && Abs(s') == Abs(s)[1..] && PcOf(s', p) == PopRead(s.head) && s'.pushed == s.pushed
  {
    PopCasKeepsInv(s, p, s.head, false);
    hide Slot, BitAnd, CellInv, OwnerInv, ReturnedInv, ThreadInv;
  }

  lemma ReadStep<T>(s: State<T>, p: Tid, h: nat)
    requires Inv(s) && PcOf(s, p) == PopRead(h)
    ensures var s' := Next(s, p, Step(false));
      Inv(s') && Abs(s') == Abs(s) && PcOf(s', p).PopRelease? && PcOf(s', p).h == h && s'.pushed == s.pushed
  {
    NextKeepsInv(s, p, Step(false));
    hide Slot, BitAnd, CellInv, OwnerInv, ReturnedInv, ThreadInv;
  }

  lemma ReleaseStep<T>(s: State<T>, p: Tid, h: nat)
    requires Inv(s) && PcOf(s, p).PopRelease? && PcOf(s, p).h == h
    ensures var s' := Next(s, p, Step(false));
      Inv(s') && Abs(s') == Abs(s) && h < |s.pushed| && PcOf(s', p) == PopEnd(Some(s.pushed[h]))
  {
    ReleaseKeepsInv(s, p, h, PcOf(s, p).r);
    hide Slot, BitAnd, CellInv, OwnerInv, ReturnedInv, ThreadInv;
  }

  lemma WonPop<T>(s: State<T>, p: Tid)
    requires Inv(s) && PcOf(s, p) == PopCasHead(s.head) && s.head < s.tail
    ensures var s' := Alone(s, p, 3);
      Inv(s') && Abs(s') == Abs(s)[1..] && PcOf(s', p) == PopEnd(Some(Abs(s)[0]))
  {
    WinPop(s, p);
    ReadStep(Alone(s, p, 1), p, s.head);
    ReleaseStep(Alone(s, p, 2), p, s.head);
    hide Slot, BitAnd, Next, CellInv, OwnerInv, ReturnedInv, ThreadInv;
  }

  /** A call and its first access: the counter is loaded. */
  lemma CallLoads<T>(s: State<T>, p: Tid, call: Action<T>)
    requires Inv(s) && PcOf(s, p).Idle? && !call.Step?
    ensures var s' := Next(Next(s, p, call), p, Step(false));
      && Inv(s') && MovesOnly(s, s', p) && s'.head == s.head && s'.tail == s.tail && s'.pushed == s.pushed
      && PcOf(s', p) == if call.CallPush? then PushLoadSeq(call.v, s.tail) else PopLoadSeq(s.head)
  {
    NextKeepsInv(s, p, call);
    NextKeepsInv(Next(s, p, call), p, Step(false));
    hide Slot, BitAnd, Inv, CellInv, OwnerInv, ReturnedInv, ThreadInv, PushTest, PopTest, PushCas, PopCas;
  }

  /** Two steps into a lone `push`: the test has been made against the current tail. */
  lemma PushReachesTest<T>(s: State<T>, p: Tid, v: T)
    requires Inv(s) && Quiescent(s) && PcOf(s, p).Idle?
    ensures var s' := Alone(Next(s, p, CallPush(v)), p, 2);
      && Inv(s') && Abs(s') == Abs(s) && s'.tail == s.tail
      && PcOf(s', p) == if |Abs(s)| == s.size then PushEnd(false) else PushCasTail(v, s.tail)
  {
    var a0 := Next(s, p, CallPush(v));
    var a1 := Next(a0, p, Step(false));
    CallLoads(s, p, CallPush(v));
    assert Alone(a0, p, 1) == a1;
    PushTestAlone(a1, p, v);
    hide Slot, BitAnd, Next, Inv, CellInv, OwnerInv, ReturnedInv, ThreadInv;
  }

  lemma PushTestAlone<T>(s: State<T>, p: Tid, v: T)
    requires Inv(s) && PcOf(s, p) == PushLoadSeq(v, s.tail) && Quiescent(s)
    ensures var s' := Next(s, p, Step(false));
      && Inv(s') && Abs(s') == Abs(s) && s'.tail == s.tail
      && PcOf(s', p) == if |Abs(s)| == s.size then PushEnd(false) else PushCasTail(v, s.tail)
  {
    PushTestKeepsInv(s, p, v, s.tail);
    PushFalseMeaning(s, p, v, s.tail);
    hide Slot, BitAnd, CellInv, OwnerInv, ReturnedInv, ThreadInv;
  }

  lemma PopReachesTest<T>(s: State<T>, p: Tid)
    requires Inv(s) && Quiescent(s) && PcOf(s, p).Idle?
    ensures var s' := Alone(Next(s, p, CallPop), p, 2);
      && Inv(s') && Abs(s') == Abs(s) && s'.head == s.head
      && PcOf(s', p) == if Abs(s) == [] then PopEnd(None) else PopCasHead(s.head)
  {
    var a0 := Next(s, p, CallPop);
    var a1 := Next(a0, p, Step(false));
    CallLoads(s, p, CallPop);
    assert Alone(a0, p, 1) == a1;
    PopTestAlone(a1, p);
    hide Slot, BitAnd, Next, Inv, CellInv, OwnerInv, ReturnedInv, ThreadInv;
  }

  lemma PopTestAlone<T>(s: State<T>, p: Tid)
    requires Inv(s) && PcOf(s, p) == PopLoadSeq(s.head) && Quiescent(s)
    ensures var s' := Next(s, p, Step(false));
      && Inv(s') && Abs(s') == Abs(s) && s'.head == s.head
      && PcOf(s', p) == if Abs(s) == [] then PopEnd(None) else PopCasHead(s.head)
  {
    PopTestKeepsInv(s, p, s.head);
    PopFalseMeaning(s, p, s.head);
    hide Slot, BitAnd, CellInv, OwnerInv, ReturnedInv, ThreadInv;
  }

  /** Run alone from a quiescent state, `push` fails exactly on a full ring. */
  lemma SoloPush<T>(s: State<T>, p: Tid, v: T)
    requires Inv(s) && Quiescent(s) && PcOf(s, p).Idle?
    ensures var s' := Alone(Next(s, p, CallPush(v)), p, if |Abs(s)| == s.size then 2 else 5);
      && Inv(s') && Abs(s') == (if |Abs(s)| == s.size then Abs(s) else Abs(s) + [v])
      && PcOf(s', p) == PushEnd(|Abs(s)| != s.size)
  {
    var a0 := Next(s, p, CallPush(v));
    PushReachesTest(s, p, v);
    if |Abs(s)| != s.size {
      WonPush(Alone(a0, p, 2), p, v);
      AloneAdds(a0, p, 2, 3);
    }
    hide Slot, BitAnd, Inv, Alone, Next;
  }

  /** Run alone from a quiescent state, `pop` fails exactly on an empty ring. */
  lemma SoloPop<T>(s: State<T>, p: Tid)
    requires Inv(s) && Quiescent(s) && PcOf(s, p).Idle?
    ensures var s' := Alone(Next(s, p, CallPop), p, if Abs(s) == [] then 2 else 5);
      && Inv(s') && Abs(s') == (if Abs(s) == [] then [] else Abs(s)[1..])
      && PcOf(s', p) == PopEnd(if Abs(s) == [] then None else Some(Abs(s)[0]))
  {
    var a0 := Next(s, p, CallPop);
    PopReachesTest(s, p);
    if Abs(s) != [] {
      WonPop(Alone(a0, p, 2), p);
      AloneAdds(a0, p, 2, 3);
    }
    hide Slot, BitAnd, Inv, Alone, Next;
  }

  // ----- the one size the constructor accepts and the scheme does not --------------

  /** Two pushes by one thread, each run to its end. */
  function TwoPushes<T>(s: State<T>, p: Tid, v: T, w: T): State<T>
    requires WellFormed(s)
  {
    var s1 := Next(Alone(Next(s, p, CallPush(v)), p, 5), p, Step(false));
    Alone(Next(s1, p, CallPush(w)), p, 5)
  }

  lemma OneCellFilled<T>(blank: T, v: T)
    ensures ValidSize(1)
    ensures var s := Next(Alone(Next(Init(1, blank), 0, CallPush(v)), 0, 5), 0, Step(false));
      s.pushed == [v] && s.head == 0 && s.tail == 1 && s.cells == [Cell(1, v, 0, true, None)] && PcOf(s, 0).Idle?
  {
    var a0 := Next(Init(1, blank), 0, CallPush(v));
    var a1, a2, a3, a4, a5 := Alone(a0, 0, 1), Alone(a0, 0, 2), Alone(a0, 0, 3), Alone(a0, 0, 4), Alone(a0, 0, 5);
    assert PcOf(a2, 0) == PushCasTail(v, 0);
    assert a4.cells == [Cell(0, v, 0, false, Some(0))];
  }

  lemma OneCellPushed<T>(s: State<T>, v: T, w: T)
    requires ValidSize(1) && s.size == 1 && s.cells == [Cell(1, v, 0, true, None)] && s.pushed == [v]
    requires s.head == 0 && s.tail == 1 && PcOf(s, 0).Idle?
    ensures var s' := Alone(Next(s, 0, CallPush(w)), 0, 5);
      s'.pushed == [v, w] && s'.head == 0 && s'.tail == 2 && s'.cells[0].data == w && PcOf(s', 0) == PushEnd(true)
  {
    var b0 := Next(s, 0, CallPush(w));
    var b1, b2, b3, b4, b5 := Alone(b0, 0, 1), Alone(b0, 0, 2), Alone(b0, 0, 3), Alone(b0, 0, 4), Alone(b0, 0, 5);
    assert PcOf(b2, 0) == PushCasTail(w, 1);
    assert b4.cells[0].data == w;
  }

  /** A ring of one cell accepts a second push before any pop, and loses the first value. */
  lemma OneCellOverruns<T>(blank: T, v: T, w: T)
    ensures ValidSize(1)
    ensures var s := TwoPushes(Init(1, blank), 0, v, w);
      s.pushed == [v, w] && s.head == 0 && s.tail == 2 && s.cells[0].data == w && PcOf(s, 0) == PushEnd(true)
  {
    OneCellFilled(blank, v);
    OneCellPushed(Next(Alone(Next(Init(1, blank), 0, CallPush(v)), 0, 5), 0, Step(false)), v, w);
    hide Next, Alone, BitAnd;
  }

  lemma {:induction false} RunAppends<T>(s: State<T>, a: seq<(Tid, Action<T>)>, b: seq<(Tid, Action<T>)>)
    requires WellFormed(s)
    ensures Run(s, a + b) == Run(Run(s, a), b)
    decreases |a|
  {
    if a == [] {
      assert a + b == b;
    } else {
      assert (a + b)[1..] == a[1..] + b;
      RunAppends(Next(s, a[0].0, a[0].1), a[1..], b);
    }
  }

  lemma {:induction false} AloneIsRun<T>(s: State<T>, p: Tid, n: nat) returns (schedule: seq<(Tid, Action<T>)>)
    requires WellFormed(s)
    ensures Run(s, schedule) == Alone(s, p, n)
  {
    schedule := [];
    if n == 0 {
    } else {
      var before := AloneIsRun(s, p, n - 1);
      schedule := before + [(p, Step(false))];
      RunAppends(s, before, [(p, Step(false))]);
    }
  }

  lemma CallIsRun<T>(s: State<T>, p: Tid, v: T) returns (schedule: seq<(Tid, Action<T>)>)
    requires WellFormed(s)
    ensures Run(s, schedule) == Alone(Next(s, p, CallPush(v)), p, 5)
  {
    var tail := AloneIsRun(Next(s, p, CallPush(v)), p, 5);
    RunAppends(s, [(p, CallPush(v))], tail);
    schedule := [(p, CallPush(v))] + tail;
  }

  lemma StepIsRun<T>(s: State<T>, p: Tid)
    requires WellFormed(s)
    ensures Run(s, [(p, Step(false))]) == Next(s, p, Step(false))
  {
    var schedule: seq<(Tid, Action<T>)> := [(p, Step(false))];
    assert schedule[1..] == [];
    hide Next;
  }

  lemma TwoPushesAreRun<T>(s: State<T>, p: Tid, v: T, w: T) returns (schedule: seq<(Tid, Action<T>)>)
    requires WellFormed(s)
    ensures Run(s, schedule) == TwoPushes(s, p, v, w)
  {
    hide Next, Alone, WellFormed, Run;
    var first := CallIsRun(s, p, v);
    var s1 := Run(s, first);
    StepIsRun(s1, p);
    var second := CallIsRun(Next(s1, p, Step(false)), p, w);
    RunAppends(s, first, [(p, Step(false))]);
    RunAppends(s, first + [(p, Step(false))], second);
    schedule := first + [(p, Step(false))] + second;
  }

  /** At size one some run carries the tail two laps ahead of the head. */
  lemma OneCellIsNotBound<T>(blank: T)
    ensures exists schedule :: var s := Run(Init(1, blank), schedule); s.tail > s.head + 1
  {
    OneCellOverruns(blank, blank, blank);
    var schedule := TwoPushesAreRun(Init(1, blank), 0, blank, blank);
    assert var s := Run(Init(1, blank), schedule); s.tail > s.head + 1;
    hide TwoPushes, Run, Slot, BitAnd;
  }

  /**
    Of the sizes the constructor accepts, exactly those of at least two cells keep the
    tail within one lap of the head in every run.
   */
  lemma BoundHoldsFromTwoCells<T>(size: nat, blank: T)
    requires ValidSize(size)
    ensures (forall schedule :: (var s := Run(Init(size, blank), schedule); s.tail <= s.head + size)) <==> size >= 2
  {
    if size >= 2 {
      forall schedule ensures (var s := Run(Init(size, blank), schedule); s.tail <= s.head + size) {
        TicketFifo(size, blank, schedule);
      }
    } else {
      OneCellIsNotBound(blank);
      var schedule :| var s := Run(Init(1, blank), schedule); s.tail > s.head + 1;
    }
    hide Run, Init, BitAnd;
  }
}
