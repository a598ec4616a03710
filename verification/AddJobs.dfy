/**
 * What a call of AddJob does: how long it takes among any others, and what has happened when it is
 * over if no other caller disturbs it.
 */
module AddJobs {
  import opened Basics
  import opened ThreadPool
  import LFQ = LockFreeQueue
  import EQ = EventQueue
  import QA = QueueAlone

  /** How many steps at most a call of AddJob still makes. */
  function Left(s: Pool, t: nat): int
    requires t < |s.progs| == |s.eq.pcs|
  {
    match s.progs[t]
    case Check(_) => 15 + s.eq.q.maxSize
    case AwaitGate(_) => 14 + s.eq.q.maxSize
    case Recheck(_) => 13 + s.eq.q.maxSize
    case Start(_) => 12 + s.eq.q.maxSize
    case OpenGate(_) => 11 + s.eq.q.maxSize
    case Adding(_) => 1 + EQ.Budget(s.eq.q, s.eq.pcs[t])
    case _ => 0
  }

  /** What a step of AddJob's own code does; the one that starts a worker is among them. */
  lemma AdderSteps(setup: Setup, s: Pool, t: nat)
    requires t < |s.progs| == |s.eq.pcs| && InAddJob(s.progs[t]) && ThOk(Th(s.eq.pcs[t], s.progs[t]))
    requires !EQ.InPut(s.eq.pcs[t]) && Go(setup, s, t).Moved?
    ensures var s' := Go(setup, s, t).state;
            var more := if s.progs[t].Start? then 1 else 0;
            && |s'.progs| == |s'.eq.pcs| == |s.progs| + more
            && s'.eq.q == s.eq.q && s'.eq.popped == s.eq.popped && s'.submitted == s.submitted && s'.refused == s.refused && s'.done == s.done
            && (forall u :: 0 <= u < |s.progs| && u != t ==> s'.progs[u] == s.progs[u] && s'.eq.pcs[u] == s.eq.pcs[u])
            && (s.progs[t].Start? ==> s'.progs[|s.progs|] == Worker && s'.eq.pcs[|s.progs|] == EQ.Idle)
            && (if s.progs[t].Adding? then s'.progs[t] == Client && s'.eq.pcs[t] == EQ.Idle
                else InAddJob(s'.progs[t]) && s'.progs[t].job == s.progs[t].job
                     && s'.eq.pcs[t] == (if s'.progs[t].Adding? then EQ.PutLock(Add(s.progs[t].job)) else EQ.Idle))
            && (s.progs[t].Recheck? ==> s'.progs[t] == (if s.listSize < setup.maxThreads then Start(s.progs[t].job) else OpenGate(s.progs[t].job)))
            && s'.listSize == s.listSize + (if s.progs[t].Recheck? && s.listSize < setup.maxThreads then 1 else 0)
            && (s.progs[t].Check? ==> s'.progs[t].Adding? || s'.progs[t].AwaitGate?)
            && (s.progs[t].Check? && s'.progs[t].Adding? ==> !(setup.dynamic && s.listSize < setup.maxThreads))
            && (s.progs[t].AwaitGate? ==> s'.progs[t].Recheck? && s'.gate == Some(t))
            && (s.progs[t].Start? ==> s'.progs[t].OpenGate?)
            && (s.progs[t].OpenGate? ==> s'.progs[t].Adding?)
            && (HoldsGate(s'.progs[t]) ==> s'.gate == s.gate || s.progs[t].AwaitGate?)
            && (s'.progs[t].Check? || s'.progs[t].AwaitGate? ==> s'.gate == s.gate)
  {
    hide QueueGo, EQ.MayGet, EQ.MayPut, EQ.Run, EQ.EffectOf;
    match s.progs[t]
    case Check(_) =>
    case AwaitGate(_) =>
    case Recheck(_) =>
    case Start(_) =>
    case OpenGate(_) =>
    case Adding(_) =>
  }

  /** A call of AddJob makes no more steps than that. */
  lemma OwnStepShrinks(setup: Setup, s: Pool, t: nat)
    requires Inv(setup, s) && t < |s.progs| && InAddJob(s.progs[t]) && Go(setup, s, t).Moved?
    ensures var s' := Go(setup, s, t).state; t < |s'.progs| == |s'.eq.pcs| && 0 <= Left(s', t) < Left(s, t)
  {
    hide EQ.Inv, EQ.Run, EQ.Budget, Sum, ListOk, LedgerOk, ShutOk, QueueGo;
    assert ThOk(Th(s.eq.pcs[t], s.progs[t]));
    EQ.BudgetOk(CFG, s.eq, t);
    if EQ.InPut(s.eq.pcs[t]) {
      QueueStepShrinks(setup, s, t);
    } else {
      AdderSteps(setup, s, t);
      PutBudget(s.eq.q, Add(s.progs[t].job));
      hide Go;
    }
  }

  lemma PutBudget(q: LFQ.Lfq<Event>, e: Event)
    ensures EQ.Budget(q, EQ.PutLock(e)) == 9 + q.maxSize
  {
  }

  lemma QueueStepShrinks(setup: Setup, s: Pool, t: nat)
    requires Inv(setup, s) && t < |s.progs| && InAddJob(s.progs[t]) && EQ.InPut(s.eq.pcs[t]) && Go(setup, s, t).Moved?
    ensures var s' := Go(setup, s, t).state; |s'.progs| == |s.progs| == |s'.eq.pcs| && 0 <= Left(s', t) < Left(s, t)
  {
    hide EQ.Inv, EQ.Run, EQ.Budget, Sum, ListOk, LedgerOk, ShutOk;
    assert ThOk(Th(s.eq.pcs[t], s.progs[t]));
    EQ.OwnStepShrinks(CFG, s.eq, t);
  }

  /** A step of a thread's own code leaves the queue's content and the other threads alone. */
  lemma OwnFrame(setup: Setup, s: Pool, u: nat)
    requires u < |s.progs| == |s.eq.pcs| && !EQ.InPut(s.eq.pcs[u]) && !EQ.InGet(s.eq.pcs[u]) && Go(setup, s, u).Moved?
    ensures var s' := Go(setup, s, u).state;
            && |s.progs| <= |s'.progs| == |s'.eq.pcs| && s'.eq.q == s.eq.q
            && forall t :: 0 <= t < |s.progs| && t != u ==> s'.progs[t] == s.progs[t] && s'.eq.pcs[t] == s.eq.pcs[t]
  {
    hide QueueGo, EQ.MayGet, EQ.MayPut, EQ.Run, EQ.EffectOf;
    match s.progs[u]
    case Worker =>
    case Running(_) =>
    case Check(_) =>
    case AwaitGate(_) =>
    case Recheck(_) =>
    case Start(_) =>
    case OpenGate(_) =>
    case Adding(_) =>
    case Closing(_) =>
  }

  /** Whatever another thread does. */
  lemma OthersLeaveIt(setup: Setup, s: Pool, t: nat, u: nat, a: Action)
    requires Inv(setup, s) && t < |s.progs| && u < |s.progs| && t != u && Act(setup, s, u, a).Moved?
    ensures var s' := Act(setup, s, u, a).state; t < |s'.progs| == |s'.eq.pcs| && s'.progs[t] == s.progs[t] && Left(s', t) == Left(s, t)
  {
    hide EQ.Inv, EQ.Budget, EQ.Run, Sum, ListOk, LedgerOk, ShutOk, Go;
    if a.Step? && (EQ.InPut(s.eq.pcs[u]) || EQ.InGet(s.eq.pcs[u])) {
      QueueFrame(setup, s, t, u);
    } else if a.Step? {
      OwnFrame(setup, s, u);
    }
  }

  lemma QueueFrame(setup: Setup, s: Pool, t: nat, u: nat)
    requires Inv(setup, s) && t < |s.progs| && u < |s.progs| && t != u && (EQ.InPut(s.eq.pcs[u]) || EQ.InGet(s.eq.pcs[u])) && Go(setup, s, u).Moved?
    ensures var s' := Go(setup, s, u).state; t < |s'.progs| == |s'.eq.pcs| && s'.progs[t] == s.progs[t] && Left(s', t) == Left(s, t)
  {
    hide EQ.Inv, EQ.Budget, EQ.Run, EQ.EffectOf, Sum, ListOk, LedgerOk, ShutOk;
    EQ.OthersLeaveBudget(CFG, s.eq, t, u, EQ.Go);
    EQ.RunKeepsSize(CFG, s.eq, u);
  }

  /** How many steps thread t makes in a run before the AddJob it is in is over. */
  function StepsInCall(setup: Setup, s: Pool, t: nat, schedule: seq<(nat, Action)>): nat
    requires t < |s.progs| == |s.eq.pcs|
    decreases |schedule|
  {
    if schedule == [] || !InAddJob(s.progs[t]) then 0
    else if schedule[0].0 >= |s.progs| then StepsInCall(setup, s, t, schedule[1..])
    else match Act(setup, s, schedule[0].0, schedule[0].1)
         case Blocked => StepsInCall(setup, s, t, schedule[1..])
         case Fault => 0
         case Moved(s') =>
           (if schedule[0].0 == t then 1 else 0)
           + if t < |s'.progs| == |s'.eq.pcs| then StepsInCall(setup, s', t, schedule[1..]) else 0
  }

  lemma {:induction false} WithinLeft(setup: Setup, s: Pool, t: nat, schedule: seq<(nat, Action)>)
    requires Inv(setup, s) && t < |s.progs|
    ensures InAddJob(s.progs[t]) ==> StepsInCall(setup, s, t, schedule) <= Left(s, t)
    ensures !InAddJob(s.progs[t]) ==> StepsInCall(setup, s, t, schedule) == 0
    decreases |schedule|
  {
    hide EQ.Inv, ListOk, LedgerOk, ShutOk, Go, Left;
    LeftOk(setup, s, t);
    if schedule != [] && InAddJob(s.progs[t]) {
      var (u, a) := schedule[0];
      if u < |s.progs| && Act(setup, s, u, a).Moved? {
        ActKeepsInv(setup, s, u, a);
        var s' := Act(setup, s, u, a).state;
        if u != t { OthersLeaveIt(setup, s, t, u, a); } else { OwnStepShrinks(setup, s, t); }
        WithinLeft(setup, s', t, schedule[1..]);
      } else {
        WithinLeft(setup, s, t, schedule[1..]);
      }
    }
  }

  lemma LeftOk(setup: Setup, s: Pool, t: nat)
    requires Inv(setup, s) && t < |s.progs|
    ensures 0 <= Left(s, t) <= 15 + s.eq.q.maxSize
  {
    hide EQ.Inv, EQ.Budget, ListOk, LedgerOk, ShutOk;
    EQ.BudgetOk(CFG, s.eq, t);
  }

  /**
   * No call of AddJob goes on for ever: whatever workers, other callers and Destroy do meanwhile, it
   * is over after at most maxSize + 15 steps of its own thread.
   */
  lemma AddJobIsShort(setup: Setup, s: Pool, t: nat, schedule: seq<(nat, Action)>)
    requires Inv(setup, s) && t < |s.progs|
    ensures StepsInCall(setup, s, t, schedule) <= 15 + s.eq.q.maxSize
  {
    WithinLeft(setup, s, t, schedule);
    LeftOk(setup, s, t);
  }

  // ---------------------------------------------------------------- undisturbed

  function Stepping(t: nat, n: nat): seq<(nat, Action)>
  {
    if n == 0 then [] else [(t, Step)] + Stepping(t, n - 1)
  }

  /** The call will still start a worker. */
  predicate WillStart(setup: Setup, s: Pool, t: nat)
    requires t < |s.progs|
  {
    s.listSize < setup.maxThreads && ((s.progs[t].Check? && setup.dynamic) || s.progs[t].AwaitGate? || s.progs[t].Recheck?)
  }

  /** The job the call has still to put. */
  function StillToPut(s: Pool, t: nat): Option<Event>
    requires t < |s.progs| == |s.eq.pcs| && InAddJob(s.progs[t])
  {
    if s.progs[t].Adding? then EQ.Offered(s.eq.pcs[t]) else Some(Add(s.progs[t].job))
  }

  /** What has happened when the call is over. */
  ghost predicate Over(setup: Setup, s: Pool, t: nat, s': Pool)
    requires t < |s.progs| == |s.eq.pcs| && InAddJob(s.progs[t])
  {
    var e := StillToPut(s, t);
    var room := |LFQ.Live(s.eq.q)| < s.eq.q.maxSize;
    && t < |s'.progs| == |s'.eq.pcs| && s'.progs[t] == Client && s'.eq.pcs[t] == EQ.Idle
    && s'.listSize == s.listSize + (if WillStart(setup, s, t) then 1 else 0)
    && LFQ.Live(s'.eq.q) == LFQ.Live(s.eq.q) + (if e.Some? && room then [e.value] else [])
    && s'.refused == s.refused + (if e.Some? && !room then multiset{e.value} else multiset{})
    && s'.done == s.done && s'.eq.popped == s.eq.popped && s'.submitted == s.submitted
  }

  ghost predicate Undisturbed(s: Pool, t: nat)
    requires t < |s.progs| == |s.eq.pcs|
  {
    && (forall u :: 0 <= u < |s.progs| && u != t ==> !EQ.InPut(s.eq.pcs[u]))
    && (s.gate.Some? ==> HoldsGate(s.progs[t])) && QA.Tidy(s.eq.q, s.eq.pcs[t])
  }

  /** One step in the Put of the call. */
  lemma PutStep(setup: Setup, s: Pool, t: nat)
    requires Inv(setup, s) && t < |s.progs| && InAddJob(s.progs[t]) && EQ.InPut(s.eq.pcs[t]) && Undisturbed(s, t)
    ensures Go(setup, s, t).Moved?
    ensures var s' := Go(setup, s, t).state;
            && |s'.progs| == |s'.eq.pcs| == |s.progs| && s'.progs == s.progs && Undisturbed(s', t)
            && (forall f :: Over(setup, s', t, f) ==> Over(setup, s, t, f))
  {
    hide EQ.Inv, EQ.Run, LFQ.Live, LFQ.QOk, QA.Tidy, Sum, ListOk, LedgerOk, ShutOk;
    assert ThOk(Th(s.eq.pcs[t], s.progs[t]));
    EQ.PutNeverWaits(CFG, s.eq, t);
    EQ.StepOfCall(CFG, s.eq, t);
    QA.StepIsTidy(CFG, s.eq, t);
    var s' := Go(setup, s, t).state;
    forall f | Over(setup, s', t, f) ensures Over(setup, s, t, f) {
      assert s.refused + multiset{} == s.refused;
    }
  }

  /** One step of the call's own code. */
  lemma OwnStep(setup: Setup, s: Pool, t: nat)
    requires Inv(setup, s) && t < |s.progs| && InAddJob(s.progs[t]) && !EQ.InPut(s.eq.pcs[t]) && Undisturbed(s, t)
    ensures Go(setup, s, t).Moved?
    ensures var s' := Go(setup, s, t).state;
            && t < |s'.progs| == |s'.eq.pcs|
            && (s.progs[t].Adding? ==> Over(setup, s, t, s'))
            && (!s.progs[t].Adding? ==> InAddJob(s'.progs[t]) && Undisturbed(s', t)
                                        && forall f :: Over(setup, s', t, f) ==> Over(setup, s, t, f))
  {
    hide EQ.Inv, LFQ.Live, LFQ.QOk, Sum, LedgerOk, ShutOk;
    AdderMoves(setup, s, t);
    AdderSteps(setup, s, t);
    hide Go;
    assert ThOk(Th(s.eq.pcs[t], s.progs[t]));
  }

  lemma AdderMoves(setup: Setup, s: Pool, t: nat)
    requires Inv(setup, s) && t < |s.progs| && InAddJob(s.progs[t]) && !EQ.InPut(s.eq.pcs[t]) && (s.gate.Some? ==> HoldsGate(s.progs[t]))
    ensures ThOk(Th(s.eq.pcs[t], s.progs[t])) && Go(setup, s, t).Moved?
  {
    hide EQ.Inv, Sum, ListOk, LedgerOk, ShutOk, QueueGo;
    assert ThOk(Th(s.eq.pcs[t], s.progs[t]));
  }

  lemma {:induction false} GoesOn(setup: Setup, s: Pool, t: nat) returns (n: nat)
    requires Inv(setup, s) && t < |s.progs| && InAddJob(s.progs[t]) && Undisturbed(s, t)
    ensures Play(setup, s, Stepping(t, n)).Some? && Over(setup, s, t, Play(setup, s, Stepping(t, n)).value)
    decreases Left(s, t)
  {
    hide EQ.Inv, ListOk, LedgerOk, ShutOk, Go, Left, Over, Undisturbed;
    if EQ.InPut(s.eq.pcs[t]) { PutStep(setup, s, t); } else { OwnStep(setup, s, t); }
    GoKeepsInv(setup, s, t);
    OwnStepShrinks(setup, s, t);
    LeftOk(setup, s, t);
    var s' := Go(setup, s, t).state;
    n := 0;
    if EQ.InPut(s.eq.pcs[t]) || !s.progs[t].Adding? { n := GoesOn(setup, s', t); }
    n := n + 1;
    assert Stepping(t, n)[1..] == Stepping(t, n - 1);
    assert Act(setup, s, t, Step) == Moved(s');
  }

  /**
   * AddJob that no other caller disturbs, with workers and other threads standing still: a dynamic
   * pool below its maximum has one worker more; the job is the last in the queue if there is room,
   * and otherwise turned away.
   */
  lemma AddJobAlone(setup: Setup, s: Pool, t: nat, job: Option<nat>) returns (n: nat)
    requires Inv(setup, s) && t < |s.progs| && s.progs[t].Client? && (setup.orderly ==> !s.shut) && s.gate == None
    requires forall u :: 0 <= u < |s.progs| ==> !EQ.InPut(s.eq.pcs[u])
    ensures Play(setup, s, [(t, AddJob(job))] + Stepping(t, n)).Some?
    ensures var s' := Play(setup, s, [(t, AddJob(job))] + Stepping(t, n)).value;
            var room := |LFQ.Live(s.eq.q)| < s.eq.q.maxSize;
            && t < |s'.progs| && s'.progs[t] == Client
            && s'.listSize == s.listSize + (if setup.dynamic && s.listSize < setup.maxThreads then 1 else 0)
            && LFQ.Live(s'.eq.q) == LFQ.Live(s.eq.q) + (if room then [Add(job)] else [])
            && s'.refused == s.refused + (if room then multiset{} else multiset{Add(job)})
            && s'.done == s.done && s'.eq.popped == s.eq.popped && s'.submitted == s.submitted + multiset{Add(job)}
  {
    hide EQ.Inv, ListOk, LedgerOk, ShutOk, Go, LFQ.Live;
    assert ThOk(Th(s.eq.pcs[t], s.progs[t]));
    AddJobKeepsInv(setup, s, t, job);
    var s1 := Act(setup, s, t, AddJob(job)).state;
    n := GoesOn(setup, s1, t);
    var schedule := [(t, AddJob(job))] + Stepping(t, n);
    assert schedule[1..] == Stepping(t, n);
  }
}
