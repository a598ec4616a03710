/**
 * Where every job that was ever given to AddJob is: AddJob does not look at the result of Put, so
 * a job that a full queue turns away is gone without anybody being told.
 */
module JobLedger {
  import opened Basics
  import LFQ = LockFreeQueue
  import opened ThreadPool
  import EQ = EventQueue

  /** The job a caller of AddJob has with it, neither in the queue yet nor turned away. */
  function JobOf(th: Th): Option<Event>
  {
    match th.prog
    case Check(job) => Some(Add(job))
    case AwaitGate(job) => Some(Add(job))
    case Recheck(job) => Some(Add(job))
    case Start(job) => Some(Add(job))
    case OpenGate(job) => Some(Add(job))
    case Adding(job) => if EQ.Offered(th.pc).Some? then Some(Add(job)) else None
    case _ => None
  }

  function Unit(e: Event): Th -> int
  {
    th => if JobOf(th) == Some(e) then 1 else 0
  }

  /** How many callers of AddJob have this job with them. */
  function OnTheirWay(s: Pool, e: Event): int
    requires |s.progs| == |s.eq.pcs|
  {
    Sum(Unit(e), Threads(s))
  }

  ghost predicate Balanced(s: Pool)
    requires |s.progs| == |s.eq.pcs|
  {
    forall e: Event :: e.Add? ==> s.submitted[e] == multiset(s.eq.pushed)[e] + s.refused[e] + OnTheirWay(s, e)
  }

  /** One thread moves, and what it does to its own job is entered on the other side. */
  lemma OneMoves(s: Pool, s': Pool, t: nat, e: Event)
    requires t < |s.progs| == |s.eq.pcs| && |s'.progs| == |s'.eq.pcs| == |s.progs|
    requires s'.eq.pcs == s.eq.pcs[t := s'.eq.pcs[t]] && s'.progs == s.progs[t := s'.progs[t]]
    ensures OnTheirWay(s', e) == OnTheirWay(s, e) - Unit(e)(Th(s.eq.pcs[t], s.progs[t])) + Unit(e)(Th(s'.eq.pcs[t], s'.progs[t]))
  {
    var th' := Th(s'.eq.pcs[t], s'.progs[t]);
    assert Threads(s') == Threads(s)[t := th'];
    SumUpdate(Unit(e), Threads(s), t, th');
  }

  lemma QueueGoBalances(setup: Setup, s: Pool, t: nat)
    requires Inv(setup, s) && Balanced(s) && t < |s.progs| && QueueGo(s, t).Moved?
    ensures |QueueGo(s, t).state.progs| == |QueueGo(s, t).state.eq.pcs| && Balanced(QueueGo(s, t).state)
  {
    hide EQ.Inv, LFQ.QOk, Sum, LFQ.Live, HeldAll, EQ.Run, ListOk, LedgerOk, ShutOk;
    QueueGoShape(s, t);
    var s' := QueueGo(s, t).state;
    var f := EQ.EffectOf(s.eq, t);
    assert ThOk(Th(s.eq.pcs[t], s.progs[t])) && ThOk(Th(s'.eq.pcs[t], s'.progs[t]));
    forall e: Event | e.Add?
      ensures s'.submitted[e] == multiset(s'.eq.pushed)[e] + s'.refused[e] + OnTheirWay(s', e)
    {
      OneMoves(s, s', t, e);
      if f.Enqueue? { assert multiset(s.eq.pushed + [f.e]) == multiset(s.eq.pushed) + multiset{f.e}; }
    }
  }

  /** What a step of a thread's own code does that matters here. */
  lemma OwnShape(setup: Setup, s: Pool, t: nat)
    requires t < |s.progs| == |s.eq.pcs| && ThOk(Th(s.eq.pcs[t], s.progs[t])) && !EQ.InPut(s.eq.pcs[t]) && !EQ.InGet(s.eq.pcs[t])
    requires Go(setup, s, t).Moved? && !s.progs[t].Start?
    ensures var s' := Go(setup, s, t).state;
            && s'.submitted == s.submitted && s'.refused == s.refused
            && |s'.progs| == |s'.eq.pcs| == |s.progs|
            && s'.eq == EQ.At(s.eq, t, s'.eq.pcs[t]) && s'.progs == s.progs[t := s'.progs[t]]
            && JobOf(Th(s'.eq.pcs[t], s'.progs[t])) == JobOf(Th(s.eq.pcs[t], s.progs[t]))
  {
    hide QueueGo, EQ.MayGet, EQ.MayPut, EQ.Run, EQ.EffectOf;
    match s.progs[t]
    case Worker =>
    case Running(_) =>
    case Check(_) =>
    case AwaitGate(_) =>
    case Recheck(_) =>
    case OpenGate(_) =>
    case Adding(_) =>
    case Closing(_) =>
  }

  lemma StartBalances(setup: Setup, s: Pool, t: nat)
    requires Shape(s) && Balanced(s) && t < |s.progs| && s.progs[t].Start? && Go(setup, s, t).Moved?
    ensures |Go(setup, s, t).state.progs| == |Go(setup, s, t).state.eq.pcs| && Balanced(Go(setup, s, t).state)
  {
    hide EQ.Inv, Sum, QueueGo;
    assert ThOk(Th(s.eq.pcs[t], s.progs[t]));
    var s' := Go(setup, s, t).state;
    var p' := OpenGate(s.progs[t].job);
    forall e: Event | e.Add? ensures OnTheirWay(s', e) == OnTheirWay(s, e) {
      var moved := Threads(s)[t := Th(s.eq.pcs[t], p')];
      SumUpdate(Unit(e), Threads(s), t, Th(s.eq.pcs[t], p'));
      assert Threads(s') == moved + [Th(EQ.Idle, Worker)];
      SumAppend(Unit(e), moved, Th(EQ.Idle, Worker));
    }
  }

  lemma OwnBalances(setup: Setup, s: Pool, t: nat)
    requires Shape(s) && Balanced(s) && t < |s.progs| && !EQ.InPut(s.eq.pcs[t]) && !EQ.InGet(s.eq.pcs[t])
    requires Go(setup, s, t).Moved? && !s.progs[t].Start?
    ensures |Go(setup, s, t).state.progs| == |Go(setup, s, t).state.eq.pcs| && Balanced(Go(setup, s, t).state)
  {
    hide EQ.Inv, Go, JobOf, Sum;
    assert ThOk(Th(s.eq.pcs[t], s.progs[t]));
    OwnShape(setup, s, t);
    var s' := Go(setup, s, t).state;
    forall e: Event | e.Add? ensures OnTheirWay(s', e) == OnTheirWay(s, e) { OneMoves(s, s', t, e); }
  }

  lemma ActBalances(setup: Setup, s: Pool, t: nat, a: Action)
    requires Inv(setup, s) && Balanced(s) && t < |s.progs| && Act(setup, s, t, a).Moved?
    ensures |Act(setup, s, t, a).state.progs| == |Act(setup, s, t, a).state.eq.pcs| && Balanced(Act(setup, s, t, a).state)
  {
    hide EQ.Inv, Sum, ListOk, LedgerOk, ShutOk, Go;
    var s' := Act(setup, s, t, a).state;
    if a.Step? {
      StepBalances(setup, s, t);
    } else {
      forall e: Event | e.Add? ensures s'.submitted[e] == multiset(s'.eq.pushed)[e] + s'.refused[e] + OnTheirWay(s', e) {
        OneMoves(s, s', t, e);
      }
    }
  }

  lemma StepBalances(setup: Setup, s: Pool, t: nat)
    requires Inv(setup, s) && Balanced(s) && t < |s.progs| && Go(setup, s, t).Moved?
    ensures |Go(setup, s, t).state.progs| == |Go(setup, s, t).state.eq.pcs| && Balanced(Go(setup, s, t).state)
  {
    if EQ.InPut(s.eq.pcs[t]) || EQ.InGet(s.eq.pcs[t]) {
      assert Go(setup, s, t) == QueueGo(s, t);
      QueueGoBalances(setup, s, t);
    } else if s.progs[t].Start? {
      StartBalances(setup, s, t);
    } else {
      OwnBalances(setup, s, t);
    }
  }

  lemma {:induction false} PlayBalances(setup: Setup, s: Pool, schedule: seq<(nat, Action)>)
    requires Inv(setup, s) && Balanced(s)
    ensures Play(setup, s, schedule).Some? && Inv(setup, Play(setup, s, schedule).value) && Balanced(Play(setup, s, schedule).value)
    decreases |schedule|
  {
    hide ListOk, LedgerOk, ShutOk, EQ.Inv, Act, Balanced;
    if schedule != [] {
      if schedule[0].0 >= |s.progs| {
        PlayBalances(setup, s, schedule[1..]);
      } else {
        ActKeepsInv(setup, s, schedule[0].0, schedule[0].1);
        var o := Act(setup, s, schedule[0].0, schedule[0].1);
        if o.Moved? { ActBalances(setup, s, schedule[0].0, schedule[0].1); }
        PlayBalances(setup, if o.Moved? then o.state else s, schedule[1..]);
      }
    }
  }

  /**
   * Where every job is: of every job ever given to AddJob, in every reachable state, each copy is
   * with its caller, or was turned away, or is queued, or in a worker's hands, or done with.
   */
  lemma EveryJobIsSomewhere(setup: Setup, maxSize: nat, clients: nat, schedule: seq<(nat, Action)>, job: Option<nat>)
    ensures After(setup, maxSize, clients, schedule).Some?
    ensures var s := After(setup, maxSize, clients, schedule).value;
            && |s.progs| == |s.eq.pcs| && 0 <= OnTheirWay(s, Add(job))
            && s.submitted[Add(job)] == OnTheirWay(s, Add(job)) + s.refused[Add(job)] + multiset(LFQ.Live(s.eq.q))[Add(job)]
                                        + HeldAll(Threads(s))[Add(job)] + multiset(s.done)[Add(job)]
  {
    hide LFQ.Live, LFQ.QOk, HeldAll, ListOk, LedgerOk, ShutOk, EQ.Inv, Balanced;
    JobConservation(setup, maxSize, clients, schedule);
    InitInv(setup, maxSize, clients);
    InitBalanced(setup, maxSize, clients);
    PlayBalances(setup, Init(setup, maxSize, clients), schedule);
    var s := After(setup, maxSize, clients, schedule).value;
    FromBalance(s, Add(job));
    SumBounds(Unit(Add(job)), Threads(s));
  }

  lemma InitBalanced(setup: Setup, maxSize: nat, clients: nat)
    ensures |Init(setup, maxSize, clients).progs| == |Init(setup, maxSize, clients).eq.pcs| && Balanced(Init(setup, maxSize, clients))
  {
    var s := Init(setup, maxSize, clients);
    forall e: Event | e.Add? ensures OnTheirWay(s, e) == 0 {
      SumZero(Unit(e), Threads(s));
    }
  }

  lemma FromBalance(s: Pool, e: Event)
    requires |s.progs| == |s.eq.pcs| && Balanced(s) && e.Add?
    ensures s.submitted[e] == multiset(s.eq.pushed)[e] + s.refused[e] + OnTheirWay(s, e)
  {
  }
}
