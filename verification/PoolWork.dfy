/**
 * Which workers XLThreadPool has: how many AddJob has started, and that they get everything done
 * that was accepted.
 */
module PoolWork {
  import opened Basics
  import opened ThreadPool
  import LFQ = LockFreeQueue
  import EQ = EventQueue
  import JL = JobLedger

  /** A caller of AddJob that has not yet decided whether to start a worker. */
  predicate Deciding(p: Prog)
  {
    p.Check? || p.AwaitGate? || p.Recheck?
  }

  function DecidingUnit(p: Prog): int
  {
    if Deciding(p) then 1 else 0
  }

  predicate Committed(p: Prog)
  {
    p.Start? || p.OpenGate? || p.Adding?
  }

  /** How many of the calls of AddJob have decided. */
  function Decisions(s: Pool): int
  {
    |s.submitted| - Sum(DecidingUnit, s.progs)
  }

  /** Some job has been accepted, or has its worker decided on. */
  ghost predicate SomeJob(s: Pool)
  {
    (exists t :: 0 <= t < |s.progs| && Committed(s.progs[t])) || (exists i :: 0 <= i < |s.eq.pushed| && s.eq.pushed[i].Add?)
  }

  ghost predicate WorkOk(setup: Setup, s: Pool)
    requires 0 < |s.progs|
  {
    && s.listSize == Expected(setup, Decisions(s))
    && (setup.dynamic && 1 <= setup.maxThreads && SomeJob(s) ==> 1 <= s.listSize)
    && (!s.shut ==> s.progs[CLOSER].Closer? && forall i :: 0 <= i < |s.eq.pushed| ==> s.eq.pushed[i].Add?)
  }

  /** A dynamic pool starts a worker for each job until it has the maximum. */
  function Expected(setup: Setup, decisions: int): int
  {
    if setup.maxThreads <= 0 then 0
    else if !setup.dynamic || setup.maxThreads < decisions then setup.maxThreads
    else decisions
  }

  lemma QueueWork(setup: Setup, s: Pool, t: nat)
    requires Inv(setup, s) && WorkOk(setup, s) && t < |s.progs| && QueueGo(s, t).Moved?
    ensures 0 < |QueueGo(s, t).state.progs| && WorkOk(setup, QueueGo(s, t).state)
  {
    hide EQ.Inv, LFQ.QOk, Sum, LFQ.Live, HeldAll, EQ.Run, ListOk, LedgerOk, ShutOk;
    QueueGoShape(s, t);
    var s' := QueueGo(s, t).state;
    assert ThOk(Th(s.eq.pcs[t], s.progs[t]));
    assert s'.eq.pushed == s.eq.pushed || (EQ.EffectOf(s.eq, t).Enqueue? && s'.eq.pushed == s.eq.pushed + [EQ.EffectOf(s.eq, t).e]);
    assert EQ.EffectOf(s.eq, t).Enqueue? && EQ.EffectOf(s.eq, t).e.Add? ==> Committed(s.progs[t]);
    assert forall i :: 0 <= i < |s.eq.pushed| ==> s'.eq.pushed[i] == s.eq.pushed[i];
  }

  /** What a step of a thread's own code decides. */
  lemma OwnDecision(setup: Setup, s: Pool, t: nat)
    requires t < |s.progs| == |s.eq.pcs| && ThOk(Th(s.eq.pcs[t], s.progs[t])) && !EQ.InPut(s.eq.pcs[t]) && !EQ.InGet(s.eq.pcs[t])
    requires Go(setup, s, t).Moved? && !s.progs[t].Start?
    ensures var s' := Go(setup, s, t).state;
            && |s'.progs| == |s.progs| && s'.progs == s.progs[t := s'.progs[t]]
            && s'.submitted == s.submitted && s'.eq.pushed == s.eq.pushed && s'.shut == s.shut
            && (s'.progs[t].Closer? <==> s.progs[t].Closer?)
            && (Deciding(s'.progs[t]) ==> Deciding(s.progs[t]))
            && (Committed(s'.progs[t]) && !Committed(s.progs[t]) <==> Deciding(s.progs[t]) && !Deciding(s'.progs[t]))
            && (if Deciding(s.progs[t]) && !Deciding(s'.progs[t]) then
                  s'.listSize == (if s.listSize < setup.maxThreads && setup.dynamic then s.listSize + 1 else s.listSize)
                  || (s.listSize < setup.maxThreads && !setup.dynamic)
                else s'.listSize == s.listSize)
  {
    hide QueueGo, EQ.MayGet, EQ.MayPut, EQ.Run, EQ.EffectOf;
    match s.progs[t]
    case Worker =>
    case Running(_) =>
    case Check(_) =>
    case AwaitGate(_) =>
    case Recheck(_) =>
    case OpenGate(_) =>
    case Adding(_) =>
    case Closing(_) =>
  }

  lemma OwnWork(setup: Setup, s: Pool, t: nat)
    requires Inv(setup, s) && WorkOk(setup, s) && t < |s.progs| && !EQ.InPut(s.eq.pcs[t]) && !EQ.InGet(s.eq.pcs[t])
    requires Go(setup, s, t).Moved? && !s.progs[t].Start?
    ensures 0 < |Go(setup, s, t).state.progs| && WorkOk(setup, Go(setup, s, t).state)
  {
    hide EQ.Inv, Go, Sum, ListOk, LedgerOk, ShutOk;
    assert ThOk(Th(s.eq.pcs[t], s.progs[t]));
    OwnDecision(setup, s, t);
    var s' := Go(setup, s, t).state;
    SumUpdate(DecidingUnit, s.progs, t, s'.progs[t]);
    if SomeJob(s') && !SomeJob(s) {
      if u :| 0 <= u < |s'.progs| && Committed(s'.progs[u]) {
        assert u != t ==> s'.progs[u] == s.progs[u];
      }
    }
  }

  lemma StartWork(setup: Setup, s: Pool, t: nat)
    requires Inv(setup, s) && WorkOk(setup, s) && t < |s.progs| && s.progs[t].Start?
    ensures Go(setup, s, t).Moved? && 0 < |Go(setup, s, t).state.progs| && WorkOk(setup, Go(setup, s, t).state)
  {
    hide EQ.Inv, Sum, ListOk, LedgerOk, ShutOk, QueueGo;
    assert ThOk(Th(s.eq.pcs[t], s.progs[t]));
    var s' := Go(setup, s, t).state;
    var p' := OpenGate(s.progs[t].job);
    assert s'.progs == s.progs[t := p'] + [Worker];
    SumUpdate(DecidingUnit, s.progs, t, p');
    SumAppend(DecidingUnit, s.progs[t := p'], Worker);
    assert Committed(s.progs[t]);
  }

  lemma CallWork(setup: Setup, s: Pool, t: nat, a: Action)
    requires Inv(setup, s) && WorkOk(setup, s) && t < |s.progs| && Act(setup, s, t, a).Moved? && !a.Step?
    ensures 0 < |Act(setup, s, t, a).state.progs| && WorkOk(setup, Act(setup, s, t, a).state)
  {
    hide EQ.Inv, Sum, ListOk, LedgerOk, ShutOk, Go;
    var s' := Act(setup, s, t, a).state;
    SumUpdate(DecidingUnit, s.progs, t, s'.progs[t]);
    if SomeJob(s') && !SomeJob(s) {
      if u :| 0 <= u < |s'.progs| && Committed(s'.progs[u]) {
        assert u != t ==> s'.progs[u] == s.progs[u];
      }
    }
  }

  lemma ActWork(setup: Setup, s: Pool, t: nat, a: Action)
    requires Inv(setup, s) && WorkOk(setup, s) && t < |s.progs| && Act(setup, s, t, a).Moved?
    ensures 0 < |Act(setup, s, t, a).state.progs| && WorkOk(setup, Act(setup, s, t, a).state)
  {
    hide WorkOk, EQ.Inv, ListOk, LedgerOk, ShutOk, QueueGo;
    if !a.Step? {
      CallWork(setup, s, t, a);
    } else if EQ.InPut(s.eq.pcs[t]) || EQ.InGet(s.eq.pcs[t]) {
      QueueWork(setup, s, t);
    } else if s.progs[t].Start? {
      StartWork(setup, s, t);
    } else {
      OwnWork(setup, s, t);
    }
  }

  lemma {:induction false} PlayWork(setup: Setup, s: Pool, schedule: seq<(nat, Action)>)
    requires Inv(setup, s) && WorkOk(setup, s)
    ensures Play(setup, s, schedule).Some? && Inv(setup, Play(setup, s, schedule).value) && WorkOk(setup, Play(setup, s, schedule).value)
    decreases |schedule|
  {
    hide ListOk, LedgerOk, ShutOk, EQ.Inv, Act, WorkOk;
    if schedule != [] {
      if schedule[0].0 >= |s.progs| {
        PlayWork(setup, s, schedule[1..]);
      } else {
        ActKeepsInv(setup, s, schedule[0].0, schedule[0].1);
        var o := Act(setup, s, schedule[0].0, schedule[0].1);
        if o.Moved? { ActWork(setup, s, schedule[0].0, schedule[0].1); }
        PlayWork(setup, if o.Moved? then o.state else s, schedule[1..]);
      }
    }
  }

  lemma InitWork(setup: Setup, maxSize: nat, clients: nat)
    ensures 0 < |Init(setup, maxSize, clients).progs| && WorkOk(setup, Init(setup, maxSize, clients))
  {
    SumZero(DecidingUnit, Init(setup, maxSize, clients).progs);
  }

  /**
   * Workers are started: in every reachable state a pool that is not dynamic has its maximum of
   * workers, and a dynamic one has one for each call of AddJob that is past the decision, up to
   * the maximum. So with a maximum of at least one there is a worker as soon as a job is accepted.
   */
  lemma WorkersStarted(setup: Setup, maxSize: nat, clients: nat, schedule: seq<(nat, Action)>)
    ensures After(setup, maxSize, clients, schedule).Some?
    ensures var s := After(setup, maxSize, clients, schedule).value;
            && s.listSize == Sum(WorkerUnit, s.progs) == Expected(setup, |s.submitted| - Sum(DecidingUnit, s.progs))
            && (1 <= setup.maxThreads && (exists i :: 0 <= i < |s.eq.pushed| && s.eq.pushed[i].Add?) ==> 1 <= s.listSize)
  {
    hide EQ.Inv, Sum, HeldAll, LFQ.Live;
    InitInv(setup, maxSize, clients);
    InitWork(setup, maxSize, clients);
    PlayWork(setup, Init(setup, maxSize, clients), schedule);
  }

  // ---------------------------------------------------------------- everything gets done

  /** Before Destroy no worker has returned. */
  lemma NobodyReturned(setup: Setup, s: Pool)
    requires Inv(setup, s) && WorkOk(setup, s) && !s.shut
    ensures forall t :: 0 <= t < |s.progs| ==> !s.progs[t].Returned?
  {
    hide EQ.Exclusive, LFQ.QOk, LFQ.Live, Sum, HeldAll, ListOk, ShutOk;
    assert forall i :: 0 <= i < |s.eq.popped| ==> s.eq.popped[i] == s.eq.pushed[i];
    assert multiset(s.eq.popped)[Exit] == 0;
    assert multiset(s.done)[Exit] == 0;
    SumBounds(ReturnedUnit, s.progs);
    assert forall t :: 0 <= t < |s.progs| ==> ReturnedUnit(s.progs[t]) <= 0;
  }

  lemma SomeWorker(ps: seq<Prog>) returns (t: nat)
    requires Sum(WorkerUnit, ps) > 0
    ensures t < |ps| && WorkerUnit(ps[t]) == 1
  {
    if WorkerUnit(ps[0]) == 1 {
      t := 0;
    } else {
      t := SomeWorker(ps[1..]);
      t := t + 1;
    }
  }

  /** How often a worker has finished the Work of this job in a run. */
  function Works(setup: Setup, s: Pool, schedule: seq<(nat, Action)>, job: Option<nat>): nat
    requires |s.progs| == |s.eq.pcs|
    decreases |schedule|
  {
    if schedule == [] then 0
    else if schedule[0].0 >= |s.progs| then Works(setup, s, schedule[1..], job)
    else match Act(setup, s, schedule[0].0, schedule[0].1)
         case Blocked => Works(setup, s, schedule[1..], job)
         case Fault => 0
         case Moved(s') =>
           (if schedule[0].1.Step? && s.progs[schedule[0].0] == Running(job) then 1 else 0)
           + if |s'.progs| == |s'.eq.pcs| then Works(setup, s', schedule[1..], job) else 0
  }

  /** A job is done with only by being worked on. */
  lemma ActWorks(setup: Setup, s: Pool, t: nat, a: Action, job: Option<nat>)
    requires Inv(setup, s) && t < |s.progs| && Act(setup, s, t, a).Moved?
    ensures multiset(Act(setup, s, t, a).state.done)[Add(job)]
            == multiset(s.done)[Add(job)] + if a.Step? && s.progs[t] == Running(job) then 1 else 0
  {
    hide EQ.Inv, EQ.Run, EQ.EffectOf, EQ.MayGet, EQ.MayPut, ListOk, LedgerOk, ShutOk, Sum, Go;
    assert ThOk(Th(s.eq.pcs[t], s.progs[t]));
    if a.Step? { GoWorks(setup, s, t, job); }
  }

  /** What a step of thread t is finished with. */
  function Finished(s: Pool, t: nat): seq<Event>
    requires t < |s.progs| == |s.eq.pcs|
  {
    if s.progs[t].Running? then [Add(s.progs[t].job)]
    else if s.progs[t].Worker? && s.eq.pcs[t] == EQ.GetDone(Some(Exit)) then [Exit]
    else []
  }

  lemma GoFinishes(setup: Setup, s: Pool, t: nat)
    requires t < |s.progs| == |s.eq.pcs| && ThOk(Th(s.eq.pcs[t], s.progs[t])) && Go(setup, s, t).Moved?
    ensures Go(setup, s, t).state.done == s.done + Finished(s, t)
  {
    hide EQ.Run, EQ.EffectOf, EQ.MayGet, EQ.MayPut;
    assert s.done + [] == s.done;
  }

  lemma GoWorks(setup: Setup, s: Pool, t: nat, job: Option<nat>)
    requires t < |s.progs| == |s.eq.pcs| && ThOk(Th(s.eq.pcs[t], s.progs[t])) && Go(setup, s, t).Moved?
    ensures multiset(Go(setup, s, t).state.done)[Add(job)] == multiset(s.done)[Add(job)] + if s.progs[t] == Running(job) then 1 else 0
  {
    hide Go;
    GoFinishes(setup, s, t);
    assert multiset(s.done + Finished(s, t)) == multiset(s.done) + multiset(Finished(s, t));
  }

  lemma {:induction false} PlayWorks(setup: Setup, s: Pool, schedule: seq<(nat, Action)>, job: Option<nat>)
    requires Inv(setup, s)
    ensures Play(setup, s, schedule).Some?
    ensures multiset(Play(setup, s, schedule).value.done)[Add(job)] == multiset(s.done)[Add(job)] + Works(setup, s, schedule, job)
    decreases |schedule|
  {
    hide ListOk, LedgerOk, ShutOk, EQ.Inv, Act;
    if schedule != [] {
      var (t, a) := schedule[0];
      if t >= |s.progs| {
        PlayWorks(setup, s, schedule[1..], job);
      } else {
        ActKeepsInv(setup, s, t, a);
        var o := Act(setup, s, t, a);
        if o.Moved? { ActWorks(setup, s, t, a, job); }
        PlayWorks(setup, if o.Moved? then o.state else s, schedule[1..], job);
      }
    }
  }

  /** So in every reachable state a job is done with as often as a worker has finished its Work. */
  lemma DoneMeansWorked(setup: Setup, maxSize: nat, clients: nat, schedule: seq<(nat, Action)>, job: Option<nat>)
    ensures After(setup, maxSize, clients, schedule).Some?
    ensures multiset(After(setup, maxSize, clients, schedule).value.done)[Add(job)]
            == Works(setup, Init(setup, maxSize, clients), schedule, job)
  {
    InitInv(setup, maxSize, clients);
    PlayWorks(setup, Init(setup, maxSize, clients), schedule, job);
  }

  /**
   * The pool gets its work done: before Destroy, in any reachable state where nothing moves, if
   * the maximum is at least one, every accepted job is done with, every job ever given to AddJob was
   * turned away or is done with, and a worker called its Work as often as that.
   */
  lemma EverythingDone(setup: Setup, maxSize: nat, clients: nat, schedule: seq<(nat, Action)>, job: Option<nat>)
    requires 1 <= setup.maxThreads && After(setup, maxSize, clients, schedule).Some?
    requires var s := After(setup, maxSize, clients, schedule).value; |s.progs| == |s.eq.pcs| && Stuck(setup, s) && !s.shut
    ensures var s := After(setup, maxSize, clients, schedule).value;
            && multiset(s.done) == multiset(s.eq.pushed) && LFQ.Live(s.eq.q) == []
            && s.submitted[Add(job)] == multiset(s.done)[Add(job)] + s.refused[Add(job)]
            && multiset(s.done)[Add(job)] == Works(setup, Init(setup, maxSize, clients), schedule, job)
  {
    hide EQ.Inv, Sum, HeldAll, LFQ.Live, Stuck, WorkOk;
    InitInv(setup, maxSize, clients);
    InitWork(setup, maxSize, clients);
    PlayWork(setup, Init(setup, maxSize, clients), schedule);
    var s := After(setup, maxSize, clients, schedule).value;
    NothingQueued(setup, s);
    StuckThreads(setup, s);
    HeldEmpty(Threads(s));
    JL.EveryJobIsSomewhere(setup, maxSize, clients, schedule, job);
    JobConservation(setup, maxSize, clients, schedule);
    DoneMeansWorked(setup, maxSize, clients, schedule, job);
    assert JL.OnTheirWay(s, Add(job)) == 0 by {
      SumZero(JL.Unit(Add(job)), Threads(s));
    }
  }

  lemma NothingQueued(setup: Setup, s: Pool)
    requires Inv(setup, s) && WorkOk(setup, s) && Stuck(setup, s) && !s.shut && 1 <= setup.maxThreads
    ensures LFQ.Live(s.eq.q) == []
  {
    hide EQ.Exclusive, LFQ.QOk, LFQ.Live, Sum, HeldAll, Stuck, LedgerOk, ShutOk;
    StuckThreads(setup, s);
    NobodyReturned(setup, s);
    if s.listSize > 0 {
      var t := SomeWorker(s.progs);
      assert s.eq.pcs[t].GetTake?;
    } else {
      assert s.eq.pushed != [] ==> s.eq.pushed[0].Add?;
    }
  }
}
