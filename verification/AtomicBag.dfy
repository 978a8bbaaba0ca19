/**
  The overflow queue under concurrency, seen from outside: for every run there is a run of a bag
  whose pushes and pops take effect at one moment each, with the same calls and answers in the same
  order.  A pop of the bag may answer false at a moment at which the bag is empty, or some push has
  put its value in and not returned.
 */
module AtomicBag {
  import opened Common
  import opened RingIndex
  import Queue = OverflowRuns

  // ----- the bag -------------------------------------------------------------------------------

  /** What is in the bag, and how far each call has got. */
  datatype Bag<T> = Bag(items: multiset<T>, stages: map<Tid, Queue.Stage<T>>)

  datatype Action<T> = CallPush(v: T) | CallPop | Put | Take(r: T) | Miss | Return

  function StageOf<T>(b: Bag<T>, p: Tid): Queue.Stage<T> { if p in b.stages then b.stages[p] else Queue.Outside }

  function Goto<T>(b: Bag<T>, p: Tid, st: Queue.Stage<T>): Bag<T> { b.(stages := b.stages[p := st]) }

  ghost predicate MayMiss<T>(b: Bag<T>) { b.items == multiset{} || exists q: Tid :: StageOf(b, q).Pushed? }

  /** An action that is not enabled changes nothing. */
  ghost function Next<T>(b: Bag<T>, p: Tid, a: Action<T>): Bag<T> {
    var st := StageOf(b, p);
    match a
    case CallPush(v) => if st.Outside? then Goto(b, p, Queue.Pushing(v)) else b
    case CallPop => if st.Outside? then Goto(b, p, Queue.Popping) else b
    case Put => if st.Pushing? then Goto(b, p, Queue.Pushed).(items := b.items + multiset{st.v}) else b
    case Take(r) =>
      if st.Popping? && r in b.items then Goto(b, p, Queue.Took(r)).(items := b.items - multiset{r}) else b
    case Miss => if st.Popping? && MayMiss(b) then Goto(b, p, Queue.Missed) else b
    case Return => if st.Pushed? || st.Took? || st.Missed? then Goto(b, p, Queue.Outside) else b
  }

  ghost function Run<T>(t: seq<(Tid, Action<T>)>): Bag<T>
    decreases |t|
  {
    if t == [] then Bag(multiset{}, map[])
    else Next(Run(t[..|t| - 1]), t[|t| - 1].0, t[|t| - 1].1)
  }

  // ----- calls and answers -----------------------------------------------------------------------

  /** `push` answers nothing, `pop` a value or false. */
  datatype Answer<T> = Done | Got(r: T) | False

  datatype Event<T> = PushCalled(p: Tid, v: T) | PopCalled(p: Tid) | Answered(p: Tid, answer: Answer<T>)

  /** What a step of `p` from one stage to another shows. */
  function Shown<T>(p: Tid, st: Queue.Stage<T>, st': Queue.Stage<T>): seq<Event<T>> {
    if st.Outside? then
      if st'.Pushing? then [PushCalled(p, st'.v)] else if st'.Popping? then [PopCalled(p)] else []
    else if st'.Outside? then
      [Answered(p, if st.Took? then Got(st.r) else if st.Missed? then False else Done)]
    else []
  }

  ghost function Log<T>(t: seq<(Tid, Action<T>)>): seq<Event<T>>
    decreases |t|
  {
    if t == [] then []
    else
      var p, before := t[|t| - 1].0, t[..|t| - 1];
      Log(before) + Shown(p, StageOf(Run(before), p), StageOf(Run(t), p))
  }

  /** What the call of `p` at its end is about to answer. */
  function AnswerOf<T>(s: Queue.State<T>, p: Tid): Answer<T> {
    var r, l := Queue.Ring.PcOf(s.ring, p), Queue.List.PcOf(s.list, p);
    match Queue.PcOf(s, p)
    case RingPop => if r.PopEnd? && r.result.Some? then Got(r.result.value) else False
    case ListPop => if l.PopEnd? && l.result.Some? then Got(l.result.value) else False
    case _ => Done
  }

  /** What a step of the queue shows: a call, or the end of one. */
  ghost function Seen<T>(s: Queue.State<T>, p: Tid, a: Queue.Action<T>): seq<Event<T>>
    requires Queue.WellFormed(s)
  {
    match a
    case CallPush(v) => if Queue.PcOf(s, p).Idle? then [PushCalled(p, v)] else []
    case CallPop => if Queue.PcOf(s, p).Idle? then [PopCalled(p)] else []
    case Step(_) =>
      if !Queue.PcOf(s, p).Idle? && Queue.PcOf(Queue.Next(s, p, a), p).Idle? then [Answered(p, AnswerOf(s, p))] else []
  }

  ghost function QueueLog<T>(s: Queue.State<T>, t: seq<(Tid, Queue.Action<T>)>): seq<Event<T>>
    requires Queue.WellFormed(s)
    decreases |t|
  {
    if t == [] then []
    else
      var before := t[..|t| - 1];
      QueueLog(s, before) + Seen(Queue.Run(s, before), t[|t| - 1].0, t[|t| - 1].1)
  }

  // ----- one step ------------------------------------------------------------------------------------

  /**
    Pops that have missed in the run of the bag: among the excused ones that have taken nothing.
    In the run of the queue some of them may still be looking.
   */
  ghost predicate Foretold<T>(s: Queue.State<T>, missed: set<Tid>) {
    && (forall q :: q in missed ==> q in s.excused && (Queue.StageOf(s, q).Popping? || Queue.StageOf(s, q).Missed?))
    && (forall q: Tid :: Queue.StageOf(s, q).Missed? ==> q in missed)
  }

  function StageIn<T>(st: Queue.Stage<T>, missed: bool): Queue.Stage<T> {
    if missed then Queue.Missed else if st.Missed? then Queue.Popping else st
  }

  /** The bag holds what the queue holds, and the calls have got equally far but for the misses. */
  ghost predicate Mirrors<T>(s: Queue.State<T>, missed: set<Tid>, b: Bag<T>)
    requires Queue.PartsInv(s)
  {
    && b.items == Queue.Bag(s)
    && forall q: Tid :: StageOf(b, q) == StageIn(Queue.StageOf(s, q), q in missed)
  }

  /** What `p` does to the bag when it gets from one stage to the other. */
  function Does<T>(st: Queue.Stage<T>, st': Queue.Stage<T>): Option<Action<T>> {
    if st.Outside? && st'.Pushing? then Some(CallPush(st'.v))
    else if st.Outside? && st'.Popping? then Some(CallPop)
    else if st.Pushing? && st'.Pushed? then Some(Put)
    else if st.Popping? && st'.Took? then Some(Take(st'.r))
    else if !st.Outside? && st'.Outside? then Some(Return)
    else None
  }

  ghost function Do<T>(b: Bag<T>, p: Tid, a: Option<Action<T>>): Bag<T> {
    if a.Some? then Next(b, p, a.value) else b
  }

  lemma OnlyOneMoves<T>(b: Bag<T>, p: Tid, a: Option<Action<T>>)
    ensures forall q: Tid :: q != p ==> StageOf(Do(b, p, a), q) == StageOf(b, q)
  {
    hide MayMiss;
  }

  /** The step of one thread on its own stage. */
  ghost predicate Follows<T>(b: Bag<T>, p: Tid, st: Queue.Stage<T>, st': Queue.Stage<T>, missed: bool,
                             items': multiset<T>)
  {
    var b' := Do(b, p, Does(st, st'));
    && b'.items == items' && StageOf(b', p) == StageIn(st', missed && !st'.Outside?)
    && Shown(p, StageOf(b, p), StageOf(b', p)) == Shown(p, st, st')
  }

  lemma PopFollows<T>(b: Bag<T>, p: Tid, st: Queue.Stage<T>, st': Queue.Stage<T>, missed: bool, items': multiset<T>)
    requires Queue.BagStep(st, st', b.items, items') && (missed ==> !st'.Took?) && st.Popping?
    requires StageOf(b, p) == StageIn(st, missed)
    ensures Follows(b, p, st, st', missed, items')
  {
    hide MayMiss;
  }

  lemma PushFollows<T>(b: Bag<T>, p: Tid, st: Queue.Stage<T>, st': Queue.Stage<T>, items': multiset<T>)
    requires Queue.BagStep(st, st', b.items, items') && !st'.Refused? && (st.Outside? || st.Pushing?)
    requires StageOf(b, p) == StageIn(st, false)
    ensures Follows(b, p, st, st', false, items')
  {
    hide MayMiss;
  }

  lemma EndFollows<T>(b: Bag<T>, p: Tid, st: Queue.Stage<T>, st': Queue.Stage<T>, items': multiset<T>)
    requires Queue.BagStep(st, st', b.items, items') && (st.Pushed? || st.Took? || st.Missed?)
    requires StageOf(b, p) == st
    ensures Follows(b, p, st, st', st.Missed?, items')
  {
    hide MayMiss;
  }

  lemma StageFollows<T>(b: Bag<T>, p: Tid, st: Queue.Stage<T>, st': Queue.Stage<T>, missed: bool, items': multiset<T>)
    requires Queue.BagStep(st, st', b.items, items') && !st.Refused? && !st'.Refused?
    requires (missed ==> (st.Popping? || st.Missed?) && !st'.Took? && !st'.Pushed?) && (st.Missed? ==> missed)
    requires StageOf(b, p) == StageIn(st, missed)
    ensures Follows(b, p, st, st', missed, items')
  {
    hide Queue.BagStep, Follows, StageOf;
    if st.Popping? {
      PopFollows(b, p, st, st', missed, items');
    } else if st.Outside? || st.Pushing? {
      PushFollows(b, p, st, st', items');
    } else {
      EndFollows(b, p, st, st', items');
    }
  }

  /** Which pops have missed before the step, given those that have afterwards. */
  ghost function Before<T>(s: Queue.State<T>, s': Queue.State<T>, p: Tid, missed': set<Tid>): set<Tid> {
    if Queue.MayMiss(s') then set q | q in s.excused && Queue.StageOf(s, q).Missed?
    else if Queue.StageOf(s, p).Missed? then missed' + {p}
    else missed'
  }

  /** Those among them that have not answered. */
  ghost function Carried<T>(s: Queue.State<T>, s': Queue.State<T>, p: Tid, missed': set<Tid>): set<Tid> {
    if Queue.StageOf(s', p).Outside? then Before(s, s', p, missed') - {p} else Before(s, s', p, missed')
  }

  lemma PopsAreInside<T>(s: Queue.State<T>, p: Tid)
    requires Queue.PartsInv(s)
    ensures !Queue.StageOf(s, p).Refused? && (Queue.Pops(Queue.PcOf(s, p)) ==> !Queue.StageOf(s, p).Outside?)
    ensures Queue.StageOf(s, p).Missed? ==> Queue.Pops(Queue.PcOf(s, p))
  {
    assert Queue.Linked(s, p);
    hide Queue.Ring.Inv, Queue.List.Inv, Queue.RingStage, Queue.ListStage;
  }

  lemma MissedIsExcused<T>(s: Queue.State<T>, p: Tid)
    requires Queue.Inv(s) && Queue.StageOf(s, p).Missed?
    ensures p in s.excused
  {
    assert Queue.MissInv(s, p);
    Queue.MissedAtList(s, p);
    Queue.ListLast(s.list, p);
    hide Queue.PartsInv, Queue.RingStage, Queue.ListStage;
  }

  /** A pop that has missed in the bag was excused already, unless pops may miss now. */
  lemma ForetoldBefore<T>(s: Queue.State<T>, p: Tid, a: Queue.Action<T>, missed': set<Tid>, q: Tid)
    requires Queue.Inv(s) && Queue.Steps(s, Queue.Next(s, p, a), p) && Foretold(Queue.Next(s, p, a), missed')
    ensures var before := Before(s, Queue.Next(s, p, a), p, missed');
      && (q in before ==> q in s.excused && (Queue.StageOf(s, q).Popping? || Queue.StageOf(s, q).Missed?))
      && (Queue.StageOf(s, q).Missed? ==> q in before)
  {
    hide Queue.Next, Queue.StageOf, Queue.MayMiss, Queue.MissInv, Queue.Bag, Queue.Pops;
    hide Queue.Linked, Queue.Ring.Inv, Queue.List.Inv;
    var s' := Queue.Next(s, p, a);
    PopsAreInside(s, q);
    if Queue.StageOf(s, q).Missed? {
      MissedIsExcused(s, q);
    }
    if !Queue.MayMiss(s') && q in missed' {
      Queue.ExcuseStep(s, p, a, q);
    }
  }

  lemma StepIsForetold<T>(s: Queue.State<T>, p: Tid, a: Queue.Action<T>, missed': set<Tid>)
    requires Queue.Inv(s) && Queue.Steps(s, Queue.Next(s, p, a), p) && Foretold(Queue.Next(s, p, a), missed')
    ensures Foretold(s, Before(s, Queue.Next(s, p, a), p, missed'))
    ensures Carried(s, Queue.Next(s, p, a), p, missed') <= missed'
    ensures Queue.MayMiss(Queue.Next(s, p, a)) || Carried(s, Queue.Next(s, p, a), p, missed') == missed'
  {
    hide Queue.Next, Queue.MayMiss, Queue.StageOf, Queue.MissInv, Queue.Steps, Queue.Linked;
    hide Queue.Ring.Inv, Queue.List.Inv;
    forall q: Tid
      ensures var before := Before(s, Queue.Next(s, p, a), p, missed');
        && (q in before ==> q in s.excused && (Queue.StageOf(s, q).Popping? || Queue.StageOf(s, q).Missed?))
        && (Queue.StageOf(s, q).Missed? ==> q in before)
    {
      ForetoldBefore(s, p, a, missed', q);
    }
    CarriedFits(s, Queue.Next(s, p, a), p, missed');
  }

  lemma CarriedFits<T>(s: Queue.State<T>, s': Queue.State<T>, p: Tid, missed': set<Tid>)
    requires Queue.PartsInv(s) && Queue.Steps(s, s', p) && Foretold(s', missed')
    ensures Carried(s, s', p, missed') <= missed'
    ensures Queue.MayMiss(s') || Carried(s, s', p, missed') == missed'
  {
    hide Queue.MayMiss, Queue.StageOf, Queue.PartsInv, Queue.Bag;
  }

  // ----- whole runs ------------------------------------------------------------------------------------

  lemma RunStep<T>(t: seq<(Tid, Action<T>)>, p: Tid, a: Action<T>)
    ensures Run(t + [(p, a)]) == Next(Run(t), p, a)
    ensures Log(t + [(p, a)]) == Log(t) + Shown(p, StageOf(Run(t), p), StageOf(Next(Run(t), p, a), p))
  {
    assert (t + [(p, a)])[..|t|] == t;
    hide Next, StageOf, Shown;
  }

  /** At a moment at which pops may miss, any of those at work may do so. */
  lemma {:induction false} MissAll<T>(s: Queue.State<T>, missed: set<Tid>, missed': set<Tid>, t: seq<(Tid, Action<T>)>)
    returns (t': seq<(Tid, Action<T>)>)
    requires Queue.PartsInv(s) && Queue.MayMiss(s) && Foretold(s, missed') && missed <= missed'
    requires Mirrors(s, missed, Run(t))
    ensures Mirrors(s, missed', Run(t')) && Log(t') == Log(t)
    decreases missed' - missed
  {
    hide Queue.PartsInv, Queue.MayMiss, Queue.StageOf, Run, Log, Next, Mirrors, StageOf, Shown;
    if missed == missed' {
      t' := t;
    } else {
      MoreMissed(missed, missed');
      var q := Any(missed' - missed);
      MissOne(s, missed, Run(t), q);
      RunStep(t, q, Miss);
      t' := MissAll(s, missed + {q}, missed', t + [(q, Miss)]);
    }
  }

  lemma MoreMissed(missed: set<Tid>, missed': set<Tid>)
    requires missed <= missed' && missed != missed'
    ensures missed' - missed != {}
  {
    assert missed' == missed + (missed' - missed);
  }

  lemma MissOne<T>(s: Queue.State<T>, missed: set<Tid>, b: Bag<T>, q: Tid)
    requires Queue.PartsInv(s) && Queue.MayMiss(s) && Mirrors(s, missed, b) && q !in missed
    requires Queue.StageOf(s, q).Popping? || Queue.StageOf(s, q).Missed?
    requires forall w :: w in missed ==> !Queue.StageOf(s, w).Pushed?
    ensures Mirrors(s, missed + {q}, Next(b, q, Miss))
    ensures Shown(q, StageOf(b, q), StageOf(Next(b, q, Miss), q)) == []
  {
    Queue.EmptyBag(s);
    if w: Tid :| Queue.StageOf(s, w).Pushed? {
      assert StageOf(b, w).Pushed?;
    }
    hide Queue.PartsInv, Queue.StageOf, Queue.Bag, Queue.BothEmpty;
  }

  lemma CallPcs<T>(s: Queue.State<T>, p: Tid, a: Queue.Action<T>)
    requires Queue.WellFormed(s) && !a.Step?
    ensures var pc, pc' := Queue.PcOf(s, p), Queue.PcOf(Queue.Next(s, p, a), p);
      if !pc.Idle? then pc' == pc else if a.CallPush? then pc' == Queue.RingPush(a.v) else pc' == Queue.RingPop
  {
    hide Queue.Ring.Next, Queue.MayMiss;
  }

  /** A call returns from the end of the one or the other part. */
  lemma EndPcs<T>(s: Queue.State<T>, p: Tid, spurious: bool)
    requires Queue.WellFormed(s) && !Queue.PcOf(s, p).Idle?
    requires Queue.PcOf(Queue.Next(s, p, Queue.Step(spurious)), p).Idle?
    ensures var r, l := Queue.Ring.PcOf(s.ring, p), Queue.List.PcOf(s.list, p);
      match Queue.PcOf(s, p)
      case RingPush(_) => r.PushEnd? && r.ok
      case ListPush(_) => l.PushEnd?
      case RingPop => r.PopEnd? && r.result.Some?
      case ListPop => l.PopEnd?
      case Idle => false
  {
    hide Queue.Ring.Next, Queue.List.Next, Queue.MayMiss;
  }

  lemma StepPcs<T>(s: Queue.State<T>, p: Tid, spurious: bool)
    requires Queue.WellFormed(s)
    ensures Queue.PcOf(s, p).Idle? ==> Queue.PcOf(Queue.Next(s, p, Queue.Step(spurious)), p).Idle?
  {
    hide Queue.Ring.Next, Queue.List.Next, Queue.MayMiss;
  }

  lemma StagesByPc<T>(s: Queue.State<T>, p: Tid)
    requires Queue.PartsInv(s)
    ensures var st := Queue.StageOf(s, p);
      match Queue.PcOf(s, p)
      case Idle => st.Outside?
      case RingPush(v) => st == Queue.Pushing(v) || st.Pushed?
      case ListPush(v) => st == Queue.Pushing(v) || st.Pushed?
      case _ => st.Popping? || st.Took? || st.Missed?
  {
    assert Queue.Linked(s, p);
    hide Queue.Ring.Inv, Queue.List.Inv, Queue.RingStage, Queue.ListStage;
  }

  lemma AnswerIsStage<T>(s: Queue.State<T>, p: Tid, spurious: bool)
    requires Queue.PartsInv(s) && !Queue.PcOf(s, p).Idle?
    requires Queue.PcOf(Queue.Next(s, p, Queue.Step(spurious)), p).Idle?
    ensures var st := Queue.StageOf(s, p);
      AnswerOf(s, p) == (if st.Took? then Got(st.r) else if st.Missed? then False else Done)
  {
    EndPcs(s, p, spurious);
    Queue.RingLast(s.ring, p);
    Queue.ListLast(s.list, p);
    hide Queue.Next, Queue.PartsInv, Queue.RingStage, Queue.ListStage;
  }

  /** A step of the queue shows a call or an answer exactly as the stages of its thread do. */
  lemma SeenIsShown<T>(s: Queue.State<T>, p: Tid, a: Queue.Action<T>)
    requires Queue.PartsInv(s) && Queue.Steps(s, Queue.Next(s, p, a), p)
    ensures Seen(s, p, a) == Shown(p, Queue.StageOf(s, p), Queue.StageOf(Queue.Next(s, p, a), p))
  {
    hide Queue.Next, Queue.StageOf, Queue.Bag, Queue.Linked, Queue.Ring.Inv, Queue.List.Inv, AnswerOf;
    StagesByPc(s, p);
    StagesByPc(Queue.Next(s, p, a), p);
    if !a.Step? {
      CallPcs(s, p, a);
    } else {
      StepPcs(s, p, a.spurious);
      if !Queue.PcOf(s, p).Idle? && Queue.PcOf(Queue.Next(s, p, a), p).Idle? {
        AnswerIsStage(s, p, a.spurious);
      }
    }
  }

  lemma QueueStep<T>(s: Queue.State<T>, t: seq<(Tid, Queue.Action<T>)>)
    requires Queue.WellFormed(s) && t != []
    ensures var (p, a), before := t[|t| - 1], Queue.Run(s, t[..|t| - 1]);
      && Queue.Run(s, t) == Queue.Next(before, p, a)
      && QueueLog(s, t) == QueueLog(s, t[..|t| - 1]) + Seen(before, p, a)
  {
    hide Queue.Next, Seen;
  }

  /** One step of the queue, followed by the bag. */
  lemma Follow<T>(s: Queue.State<T>, p: Tid, a: Queue.Action<T>, missed': set<Tid>, t: seq<(Tid, Action<T>)>)
    returns (t': seq<(Tid, Action<T>)>)
    requires Queue.Inv(s) && Queue.Inv(Queue.Next(s, p, a)) && Queue.Steps(s, Queue.Next(s, p, a), p)
    requires Foretold(Queue.Next(s, p, a), missed')
    requires Foretold(s, Before(s, Queue.Next(s, p, a), p, missed'))
    requires Mirrors(s, Before(s, Queue.Next(s, p, a), p, missed'), Run(t))
    ensures Mirrors(Queue.Next(s, p, a), missed', Run(t')) && Log(t') == Log(t) + Seen(s, p, a)
  {
    hide Queue.Next, Queue.Steps, Queue.StageOf, Queue.MayMiss, Queue.MissInv, Queue.Linked, Queue.Ring.Inv;
    hide Queue.List.Inv, Foretold, Mirrors, Run, Log, Next, Seen, Before, Carried;
    var s' := Queue.Next(s, p, a);
    SeenIsShown(s, p, a);
    StepIsForetold(s, p, a, missed');
    var a' := Does(Queue.StageOf(s, p), Queue.StageOf(s', p));
    FollowOwn(s, s', p, missed', Run(t));
    if a'.Some? {
      RunStep(t, p, a'.value);
      t' := t + [(p, a'.value)];
    } else {
      t' := t;
    }
    if Carried(s, s', p, missed') != missed' {
      t' := MissAll(s', Carried(s, s', p, missed'), missed', t');
    }
  }

  lemma MissedTakesNothing<T>(s: Queue.State<T>, s': Queue.State<T>, p: Tid, missed': set<Tid>)
    requires Queue.PartsInv(s) && Queue.Steps(s, s', p) && Foretold(s', missed')
    requires Foretold(s, Before(s, s', p, missed'))
    ensures var st, st', missed := Queue.StageOf(s, p), Queue.StageOf(s', p), p in Before(s, s', p, missed');
      && (missed ==> (st.Popping? || st.Missed?) && !st'.Took? && !st'.Pushed?) && (st.Missed? ==> missed)
  {
    hide Queue.PartsInv, Queue.StageOf, Queue.Bag, Queue.MayMiss;
  }

  lemma FollowOwn<T>(s: Queue.State<T>, s': Queue.State<T>, p: Tid, missed': set<Tid>, b: Bag<T>)
    requires Queue.PartsInv(s) && Queue.Steps(s, s', p) && Foretold(s', missed')
    requires Foretold(s, Before(s, s', p, missed')) && Mirrors(s, Before(s, s', p, missed'), b)
    ensures var b' := Do(b, p, Does(Queue.StageOf(s, p), Queue.StageOf(s', p)));
      && Mirrors(s', Carried(s, s', p, missed'), b')
      && Shown(p, StageOf(b, p), StageOf(b', p)) == Shown(p, Queue.StageOf(s, p), Queue.StageOf(s', p))
  {
    hide Queue.PartsInv, Queue.StageOf, Queue.Bag, Queue.MayMiss, Queue.BagStep, Do, Does, Next, Shown;
    hide StageOf, StageIn, Before, Foretold;
    PopsAreInside(s, p);
    PopsAreInside(s', p);
    MissedTakesNothing(s, s', p, missed');
    StageFollows(b, p, Queue.StageOf(s, p), Queue.StageOf(s', p), p in Before(s, s', p, missed'), Queue.Bag(s'));
    OnlyOneMoves(b, p, Does(Queue.StageOf(s, p), Queue.StageOf(s', p)));
    forall q: Tid | q != p ensures (q in Before(s, s', p, missed')) == (q in Carried(s, s', p, missed')) {
    }
  }

  /** The induction: whichever of the excused pops are to have missed, some run of the bag gets there. */
  lemma {:induction false} Mirror<T>(s: Queue.State<T>, t: seq<(Tid, Queue.Action<T>)>, missed: set<Tid>)
    returns (u: seq<(Tid, Action<T>)>)
    requires Queue.WellFormed(s) && Queue.Inv(s) && Mirrors(s, {}, Run([])) && s.excused == {}
    requires Queue.PartsInv(Queue.Run(s, t)) && Foretold(Queue.Run(s, t), missed)
    ensures Mirrors(Queue.Run(s, t), missed, Run(u)) && Log(u) == QueueLog(s, t)
    decreases |t|
  {
    hide Queue.Next, Queue.Inv, Queue.PartsInv, Queue.StageOf, Queue.Run, Queue.Steps, Queue.Bag, Queue.WellFormed;
    hide Mirrors, Foretold, Run, Log, QueueLog, Next, Before, Seen;
    Queue.RunUnfolds(s, t);
    if t == [] {
      NoneForetold(s, missed);
      u := [];
      EmptyLogs(s);
    } else {
      var (p, a) := t[|t| - 1];
      var s0 := Queue.Run(s, t[..|t| - 1]);
      Queue.RunKeepsInv(s, t[..|t| - 1]);
      QueueStep(s, t);
      HasParts(s0);
      Queue.NextKeepsInv(s0, p, a);
      StepIsForetold(s0, p, a, missed);
      u := Mirror(s, t[..|t| - 1], Before(s0, Queue.Next(s0, p, a), p, missed));
      u := Follow(s0, p, a, missed, u);
    }
  }

  lemma HasParts<T>(s: Queue.State<T>)
    requires Queue.Inv(s)
    ensures Queue.PartsInv(s)
  {
    hide Queue.PartsInv;
  }

  lemma NoneForetold<T>(s: Queue.State<T>, missed: set<Tid>)
    requires s.excused == {} && Foretold(s, missed)
    ensures missed == {}
  {
    hide Queue.StageOf;
  }

  lemma EmptyLogs<T>(s: Queue.State<T>)
    requires Queue.WellFormed(s)
    ensures Log<T>([]) == QueueLog(s, [])
  {
  }

  lemma InitMirrors<T>(size: nat, blank: T)
    requires ValidSize(size) && size >= 2
    ensures var s := Queue.Init(size, blank); Queue.PartsInv(s) && Mirrors(s, {}, Run([]))
  {
    Queue.InitParts(size, blank);
    hide Queue.PartsInv, Slot, BitAnd, Queue.Bag;
  }

  /** The pops that have missed and not answered. */
  ghost function Missing<T>(s: Queue.State<T>): set<Tid> { set q | q in s.excused && Queue.StageOf(s, q).Missed? }

  lemma MissingIsForetold<T>(s: Queue.State<T>)
    requires Queue.Inv(s)
    ensures Foretold(s, Missing(s))
  {
    forall q: Tid | Queue.StageOf(s, q).Missed? ensures q in s.excused {
      MissedIsExcused(s, q);
    }
    hide Queue.Inv, Queue.StageOf;
  }

  /**
    Every run of the overflow queue shows the calls and answers of some run of the bag, in the same
    order, and leaves in its two parts what that run leaves in the bag.
   */
  lemma EveryRunIsAtomic<T>(size: nat, blank: T, t: seq<(Tid, Queue.Action<T>)>)
    requires ValidSize(size) && size >= 2
    ensures Queue.PartsInv(Queue.Run(Queue.Init(size, blank), t))
    ensures exists u: seq<(Tid, Action<T>)> ::
      Log(u) == QueueLog(Queue.Init(size, blank), t) && Run(u).items == Queue.Bag(Queue.Run(Queue.Init(size, blank), t))
  {
    var s := Queue.Init(size, blank);
    InitMirrors(size, blank);
    Queue.InitInv(size, blank);
    Queue.RunKeepsInv(s, t);
    MissingIsForetold(Queue.Run(s, t));
    var u := Mirror(s, t, Missing(Queue.Run(s, t)));
    assert Log(u) == QueueLog(s, t) && Run(u).items == Queue.Bag(Queue.Run(s, t));
    hide Queue.Linked, Queue.MissInv, Queue.Run, Run, Log, QueueLog, Queue.Ring.Init, Queue.List.Init;
  }
}
