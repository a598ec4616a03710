/**
 * The semaphore handshake of CScheduler: an alarm thread takes m_AlarmSem and posts ALARM_INPUT;
 * the scheduler's event loop gets it, handles the tick and gives m_AlarmSem back. On top of the
 * concurrent event queue, with any number of alarm threads and of other posters.
 */
module TickHandshake {
  import opened Basics
  import opened LockFreeQueue
  import EQ = EventQueue

  datatype Event = Alarm | Other

  datatype Prog =
    | Looping | Handling          // the scheduler's thread
    | Quiet | Taking | Posting    // OnAlarm
    | Away | PostingOther         // anyone else who posts

  /** An event thread's queue is created with SingleReader | MultiWriter. */
  const CFG := EQ.Config(false, true)

  const LOOP: nat := 0

  /** `permits` is m_AlarmSem; `lost` (history) counts the ALARM_INPUT events turned away. */
  datatype State = State(eq: EQ.State<Event>, progs: seq<Prog>, permits: int, lost: nat)

  /** m_AlarmSem.Create(0, 1) leaves one permit. */
  function Init(maxSize: nat, alarms: nat, others: nat): State
  {
    State(EQ.Init(Other, maxSize, 1 + alarms + others),
          seq(1 + alarms + others, i => if i == LOOP then Looping else if i <= alarms then Quiet else Away), 1, 0)
  }

  function Goto(s: State, t: nat, pc: EQ.PC<Event>, p: Prog): State
    requires t < |s.progs| && t < |s.eq.pcs|
  {
    s.(eq := EQ.At(s.eq, t, pc), progs := s.progs[t := p])
  }

  function QueueGo(s: State, t: nat): Outcome<State>
    requires t < |s.eq.pcs|
  {
    match EQ.Run(CFG, s.eq, t)
    case Blocked => Blocked
    case Fault => Fault
    case Moved(eq') =>
      Moved(s.(eq := eq', lost := s.lost + if EQ.EffectOf(s.eq, t) == EQ.Reject(Alarm) then 1 else 0))
  }

  datatype Action = RaiseAlarm | PostOther | Step

  /** The alarm goes off, somebody posts, or thread t makes its next step. */
  function Act(s: State, t: nat, a: Action): Outcome<State>
    requires t < |s.progs| == |s.eq.pcs|
  {
    var pc := s.eq.pcs[t];
    if a.RaiseAlarm? then (if s.progs[t].Quiet? then Moved(s.(progs := s.progs[t := Taking])) else Blocked)
    else if a.PostOther? then (if s.progs[t].Away? then Moved(Goto(s, t, EQ.PutLock(Other), PostingOther)) else Blocked)
    else if EQ.InPut(pc) || EQ.InGet(pc) then QueueGo(s, t)
    else
      match s.progs[t]
      case Looping =>
        if pc.Idle? then (if EQ.MayGet(CFG, s.eq) then Moved(Goto(s, t, EQ.GetTake, Looping)) else Fault)
        else if pc.GetDone? && pc.out.Some? then Moved(Goto(s, t, EQ.Idle, if pc.out.value.Alarm? then Handling else Looping))
        else Fault
      case Handling => Moved(s.(progs := s.progs[t := Looping], permits := s.permits + 1))
      case Quiet => Blocked
      case Taking => if s.permits <= 0 then Blocked else Moved(Goto(s, t, EQ.PutLock(Alarm), Posting).(permits := s.permits - 1))
      case Posting => Moved(Goto(s, t, EQ.Idle, Quiet))
      case Away => Blocked
      case PostingOther => Moved(Goto(s, t, EQ.Idle, Away))
  }

  function Play(s: State, schedule: seq<(nat, Action)>): Option<State>
    requires |s.progs| == |s.eq.pcs|
    decreases |schedule|
  {
    if schedule == [] then Some(s)
    else if schedule[0].0 >= |s.progs| then Play(s, schedule[1..])
    else match Act(s, schedule[0].0, schedule[0].1)
         case Blocked => Play(s, schedule[1..])
         case Fault => None
         case Moved(s') => if |s'.progs| == |s'.eq.pcs| then Play(s', schedule[1..]) else None
  }

  // ---------------------------------------------------------------- invariant

  datatype Th = Th(pc: EQ.PC<Event>, prog: Prog)

  function Threads(s: State): seq<Th>
    requires |s.progs| == |s.eq.pcs|
  {
    seq(|s.progs|, i requires 0 <= i < |s.progs| => Th(s.eq.pcs[i], s.progs[i]))
  }

  /** 1 for a thread that has a tick: taken and not yet posted, got from the queue, or being handled. */
  function TickUnit(th: Th): int
  {
    if EQ.Offered(th.pc) == Some(Alarm) || EQ.Carried(th.pc) == Some(Alarm) || th.prog.Handling? then 1 else 0
  }

  function Queued(s: State): int
  {
    multiset(Live(s.eq.q))[Alarm]
  }

  ghost predicate ThOk(th: Th)
  {
    var pc := th.pc;
    match th.prog
    case Looping => EQ.Getting(pc)
    case Posting => EQ.Putting(pc, Alarm)
    case PostingOther => EQ.Putting(pc, Other)
    case _ => pc.Idle?
  }

  ghost predicate Shape(s: State)
  {
    && 0 < |s.progs| == |s.eq.pcs|
    && EQ.Inv(CFG, s.eq)
    && (forall t :: 0 <= t < |s.progs| ==> ThOk(Th(s.eq.pcs[t], s.progs[t])))
    && (forall t :: 0 <= t < |s.progs| ==> (s.progs[t].Looping? || s.progs[t].Handling? <==> t == LOOP))
  }

  ghost predicate Inv(s: State)
  {
    && Shape(s) && 0 <= s.permits
    && s.permits + Sum(TickUnit, Threads(s)) + Queued(s) + s.lost == 1
  }

  /** A step of thread t balances if its own tick, the queue, the permits and the losses do. */
  lemma Balanced(s: State, s': State, t: nat, th': Th)
    requires Inv(s) && Shape(s') && t < |s.progs| && |s'.progs| == |s.progs| && Threads(s') == Threads(s)[t := th']
    requires s'.permits + TickUnit(th') + Queued(s') + s'.lost
             == s.permits + TickUnit(Threads(s)[t]) + Queued(s) + s.lost
    requires 0 <= s'.permits
    ensures Inv(s')
  {
    hide Sum, EQ.Inv, Live;
    SumUpdate(TickUnit, Threads(s), t, th');
  }

  lemma QueueShape(s: State, t: nat)
    requires Shape(s) && t < |s.progs| && QueueGo(s, t).Moved?
    ensures Shape(QueueGo(s, t).state) && EQ.Refines(s.eq, t, QueueGo(s, t).state.eq)
  {
    hide EQ.Inv, QOk, EQ.Run, EQ.EffectOf;
    var s' := QueueGo(s, t).state;
    EQ.StepOfCall(CFG, s.eq, t);
    assert ThOk(Th(s'.eq.pcs[t], s'.progs[t]));
    assert s'.eq.pcs == s.eq.pcs[t := s'.eq.pcs[t]];
  }

  /** What a queue step does to the ticks in the queue, its thread does the other way round. */
  lemma QueueBalance(s: State, s': State, t: nat)
    requires Shape(s) && t < |s.progs| && EQ.Refines(s.eq, t, s'.eq) && s'.progs == s.progs
    requires EQ.InPut(s.eq.pcs[t]) || EQ.InGet(s.eq.pcs[t])
    requires s'.lost == s.lost + (if EQ.EffectOf(s.eq, t) == EQ.Reject(Alarm) then 1 else 0)
    ensures |s'.eq.pcs| == |s.eq.pcs|
    ensures TickUnit(Th(s'.eq.pcs[t], s.progs[t])) + Queued(s') + s'.lost
            == TickUnit(Th(s.eq.pcs[t], s.progs[t])) + Queued(s) + s.lost
  {
    hide Live, QOk, EQ.Inv;
    assert ThOk(Th(s.eq.pcs[t], s.progs[t]));
    EQ.CountMoves(s.eq, t, s'.eq, Alarm);
  }

  lemma OwnStepKeepsInv(s: State, t: nat, a: Action)
    requires Inv(s) && t < |s.progs| && Act(s, t, a).Moved? && (!a.Step? || !(EQ.InPut(s.eq.pcs[t]) || EQ.InGet(s.eq.pcs[t])))
    ensures Inv(Act(s, t, a).state)
  {
    hide Live, QOk, EQ.Inv, EQ.Run, Sum;
    var s' := Act(s, t, a).state;
    var pc, pc' := s.eq.pcs[t], s'.eq.pcs[t];
    assert ThOk(Th(pc, s.progs[t]));
    if pc' == pc {
      assert s'.eq.pcs == s.eq.pcs;
    } else {
      EQ.CallKeepsInv(CFG, s.eq, t, pc');
    }
    assert Threads(s') == Threads(s)[t := Th(pc', s'.progs[t])];
    Balanced(s, s', t, Th(pc', s'.progs[t]));
  }

  lemma ActKeepsInv(s: State, t: nat, a: Action)
    requires Inv(s) && t < |s.progs|
    ensures !Act(s, t, a).Fault?
    ensures Act(s, t, a).Moved? ==> Inv(Act(s, t, a).state)
  {
    hide Live, QOk, EQ.Run, Sum;
    assert ThOk(Th(s.eq.pcs[t], s.progs[t]));
    if a.Step? && (EQ.InPut(s.eq.pcs[t]) || EQ.InGet(s.eq.pcs[t])) {
      EQ.RunKeepsInv(CFG, s.eq, t);
      if QueueGo(s, t).Moved? {
        var s' := QueueGo(s, t).state;
        QueueShape(s, t);
        QueueBalance(s, s', t);
        assert Threads(s') == Threads(s)[t := Th(s'.eq.pcs[t], s.progs[t])];
        Balanced(s, s', t, Th(s'.eq.pcs[t], s.progs[t]));
      }
    } else {
      if s.eq.pcs[t].GetDone? { EQ.GetHasEvent(CFG, s.eq, t); }
      if s.progs[t].Looping? && s.eq.pcs[t].Idle? { LoopMayGet(s); }
      if Act(s, t, a).Moved? { OwnStepKeepsInv(s, t, a); }
    }
  }

  /** Only the event loop calls Get. */
  lemma LoopMayGet(s: State)
    requires Shape(s) && s.eq.pcs[LOOP].Idle?
    ensures EQ.MayGet(CFG, s.eq)
  {
    hide EQ.Inv;
    forall u | 0 <= u < |s.eq.pcs| ensures !EQ.InGet(s.eq.pcs[u]) {
      assert ThOk(Th(s.eq.pcs[u], s.progs[u]));
    }
  }

  lemma {:induction false} PlayKeepsInv(s: State, schedule: seq<(nat, Action)>)
    requires Inv(s)
    ensures Play(s, schedule).Some? && Inv(Play(s, schedule).value)
    decreases |schedule|
  {
    hide EQ.Inv, Sum, Act, Live;
    if schedule != [] {
      if schedule[0].0 >= |s.progs| {
        PlayKeepsInv(s, schedule[1..]);
      } else {
        ActKeepsInv(s, schedule[0].0, schedule[0].1);
        var o := Act(s, schedule[0].0, schedule[0].1);
        PlayKeepsInv(if o.Moved? then o.state else s, schedule[1..]);
      }
    }
  }

  lemma InitInv(maxSize: nat, alarms: nat, others: nat)
    ensures Inv(Init(maxSize, alarms, others))
  {
    var s := Init(maxSize, alarms, others);
    EQ.InitInv(CFG, Other, maxSize, |s.progs|);
    SumZero(TickUnit, Threads(s));
  }

  /** A tick is somewhere between OnAlarm's Take and the handler's Give. */
  predicate HasTick(th: Th)
  {
    TickUnit(th) == 1
  }

  /**
   * In every run there is one tick and it is in one place: free as a permit, taken and not yet
   * posted, queued, got from the queue or handled, or lost. So ticks never overlap; and once an
   * ALARM_INPUT was turned away by a full queue there is never a tick again.
   */
  lemma OneTick(maxSize: nat, alarms: nat, others: nat, schedule: seq<(nat, Action)>)
    ensures Play(Init(maxSize, alarms, others), schedule).Some?
    ensures var s := Play(Init(maxSize, alarms, others), schedule).value;
            && Shape(s) && s.permits + Sum(TickUnit, Threads(s)) + Queued(s) + s.lost == 1
            && 0 <= s.permits && 0 <= Queued(s)
            && (forall t :: 0 <= t < |s.progs| && HasTick(Threads(s)[t]) ==> s.permits == 0 && Queued(s) == 0 && s.lost == 0)
            && (0 < s.lost ==> s.permits == 0 && Queued(s) == 0)
  {
    InitInv(maxSize, alarms, others);
    PlayKeepsInv(Init(maxSize, alarms, others), schedule);
    var s := Play(Init(maxSize, alarms, others), schedule).value;
    SumBounds(TickUnit, Threads(s));
  }

  ghost predicate Stuck(s: State)
    requires |s.progs| == |s.eq.pcs|
  {
    forall t :: 0 <= t < |s.progs| ==> !Act(s, t, Step).Moved?
  }

  lemma StuckThread(s: State, t: nat)
    requires Inv(s) && Stuck(s) && t < |s.progs|
    ensures !EQ.Run(CFG, s.eq, t).Moved?
    ensures EQ.InPut(s.eq.pcs[t]) || EQ.InGet(s.eq.pcs[t])
            || (s.eq.pcs[t].Idle? && (s.progs[t].Quiet? || s.progs[t].Away? || (s.progs[t].Taking? && s.permits <= 0)))
  {
    hide EQ.Inv, QOk, Live, Sum;
    assert ThOk(Th(s.eq.pcs[t], s.progs[t]));
    assert !Act(s, t, Step).Moved?;
    if s.eq.pcs[t].GetDone? { EQ.GetHasEvent(CFG, s.eq, t); }
    if s.progs[t].Looping? && s.eq.pcs[t].Idle? { LoopMayGet(s); }
  }

  /**
   * Ticks get through: where nothing moves, the loop waits for an event, no tick is under way, and
   * an alarm still waits to post its own only if a tick was lost for good.
   */
  lemma TicksGetThrough(s: State, t: nat)
    requires Inv(s) && Stuck(s) && t < |s.progs| && (s.progs[t].Quiet? || s.progs[t].Taking? || s.progs[t].Posting?)
    ensures s.eq.pcs[LOOP].GetTake? && Live(s.eq.q) == [] && s.permits + s.lost == 1
    ensures s.progs[t].Taking? ==> 0 < s.lost
    ensures s.progs[t].Quiet? || s.progs[t].Taking?
  {
    hide EQ.Inv, QOk, Live, Act, EQ.Run;
    assert s.progs[LOOP].Looping? || s.progs[LOOP].Handling?;
    forall u | 0 <= u < |s.progs| ensures !EQ.Run(CFG, s.eq, u).Moved? { StuckThread(s, u); }
    EQ.StuckMeansEmpty(CFG, s.eq);
    forall u | 0 <= u < |s.progs| ensures TickUnit(Threads(s)[u]) == 0 {
      StuckThread(s, u);
      assert ThOk(Th(s.eq.pcs[u], s.progs[u]));
    }
    SumZero(TickUnit, Threads(s));
    StuckThread(s, LOOP);
    StuckThread(s, t);
    assert ThOk(Th(s.eq.pcs[t], s.progs[t]));
  }

  /** How many steps a thread still makes before it is at a queue call, or done. */
  function Left(th: Th): nat
  {
    if th.pc.GetDone? then 2 else if th.prog.Handling? || th.prog.Taking? || th.pc.PutDone? then 1 else 0
  }

  /** Every step outside queue calls brings its thread closer to the end, or into the queue. */
  lemma OwnStepAdvances(s: State, t: nat)
    requires Inv(s) && t < |s.progs| && !EQ.InPut(s.eq.pcs[t]) && !EQ.InGet(s.eq.pcs[t]) && Act(s, t, Step).Moved?
    ensures var s' := Act(s, t, Step).state;
            && |s'.progs| == |s'.eq.pcs| == |s.progs|
            && (EQ.InPut(s'.eq.pcs[t]) || s'.eq.pcs[t].GetTake? || Left(Threads(s')[t]) < Left(Threads(s)[t]))
  {
    hide EQ.Inv, QOk, Live, Sum, EQ.Run;
    assert ThOk(Th(s.eq.pcs[t], s.progs[t]));
  }
}
