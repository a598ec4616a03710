/**
 * XLThreadPool: workers that loop over Get, clients that add jobs (and, in dynamic mode, create
 * workers), and one thread that destroys the pool. The pool is put on top of the concurrent
 * XLEventQueue, so a step of a thread is one access inside a queue call or one step of its own.
 */
module ThreadPool {
  import opened Basics
  import opened LockFreeQueue
  import EQ = EventQueue

  /** ThreadPoolEvent_Add with the job pointer (None: null), or ThreadPoolEvent_Exit. */
  datatype Event = Add(job: Option<nat>) | Exit

  /** Where a thread is in its own code. */
  datatype Prog =
    // XLThWorkThread::RunProgram
    | Worker | Running(job: Option<nat>) | Returned
    // a caller of AddJob
    | Client | Check(job: Option<nat>) | AwaitGate(job: Option<nat>) | Recheck(job: Option<nat>)
    | Start(job: Option<nat>) | OpenGate(job: Option<nat>) | Adding(job: Option<nat>)
    // the caller of Destroy
    | Closer | Closing(i: nat) | Joining

  /** A thread: its position inside a queue call, and in its own code. */
  datatype Th = Th(pc: EQ.PC<Event>, prog: Prog)

  /** How the pool is made, and whether its callers keep AddJob and Destroy apart: `orderly` says
      that Destroy is called while no AddJob runs and no AddJob is called after it. */
  datatype Setup = Setup(dynamic: bool, maxThreads: int, orderly: bool)

  /** History: `done` are the events workers are finished with, `rejected` counts the Exit events the
      queue turned away, `addedBefore` and `poppedBefore` what had been pushed and popped when
      Destroy began; `submitted` are the jobs AddJob was called with, `refused` those whose Put the
      queue turned away, which AddJob does not look at. */
  datatype Pool = Pool(eq: EQ.State<Event>, progs: seq<Prog>, listSize: nat, gate: Option<nat>, shut: bool,
                       done: seq<Event>, rejected: nat, addedBefore: nat, poppedBefore: nat,
                       submitted: multiset<Event>, refused: multiset<Event>)

  /** The queue is created with MultiReader | MultiWriter. */
  const CFG := EQ.Config(true, true)

  const CLOSER: nat := 0

  function InitialWorkers(setup: Setup): nat
  {
    if setup.dynamic || setup.maxThreads < 0 then 0 else setup.maxThreads
  }

  /** After Create: thread 0 will destroy the pool, then the clients, then the workers. */
  function Init(setup: Setup, maxSize: nat, clients: nat): Pool
  {
    var n := InitialWorkers(setup);
    Pool(EQ.Init(Exit, maxSize, 1 + clients + n),
         seq(1 + clients + n, i => if i == CLOSER then Closer else if i <= clients then Client else Worker),
         n, None, false, [], 0, 0, 0, multiset{}, multiset{})
  }

  predicate InAddJob(p: Prog)
  {
    p.Check? || p.AwaitGate? || p.Recheck? || p.Start? || p.OpenGate? || p.Adding?
  }

  predicate HoldsGate(p: Prog)
  {
    p.Recheck? || p.Start? || p.OpenGate?
  }

  predicate IsWorker(p: Prog)
  {
    p.Worker? || p.Running? || p.Returned?
  }

  predicate IsCloser(p: Prog)
  {
    p.Closer? || p.Closing? || p.Joining?
  }

  function Goto(s: Pool, t: nat, pc: EQ.PC<Event>, p: Prog): Pool
    requires t < |s.progs| && t < |s.eq.pcs|
  {
    s.(eq := EQ.At(s.eq, t, pc), progs := s.progs[t := p])
  }

  /** A step inside a queue call; what is turned away is recorded. */
  function QueueGo(s: Pool, t: nat): Outcome<Pool>
    requires t < |s.eq.pcs|
  {
    match EQ.Run(CFG, s.eq, t)
    case Blocked => Blocked
    case Fault => Fault
    case Moved(eq') =>
      var e := EQ.EffectOf(s.eq, t);
      Moved(s.(eq := eq', rejected := s.rejected + (if e == EQ.Reject(Exit) then 1 else 0),
               refused := s.refused + if e.Reject? && e.e.Add? then multiset{e.e} else multiset{}))
  }

  /** The next step of thread t, in the queue or in its own code. */
  function Go(setup: Setup, s: Pool, t: nat): Outcome<Pool>
    requires t < |s.progs| == |s.eq.pcs|
  {
    var pc := s.eq.pcs[t];
    if EQ.InPut(pc) || EQ.InGet(pc) then QueueGo(s, t)
    else
      match s.progs[t]
      case Worker =>
        if pc.Idle? then Moved(Goto(s, t, EQ.GetTake, Worker))
        else if pc.GetDone? && pc.out.Some? then
          (match pc.out.value
           case Exit => Moved(Goto(s, t, EQ.Idle, Returned).(done := s.done + [Exit]))
           case Add(job) => Moved(Goto(s, t, EQ.Idle, Running(job))))
        else Fault
      case Running(job) => Moved(Goto(s, t, EQ.Idle, Worker).(done := s.done + [Add(job)]))
      case Returned => Blocked
      case Client => Blocked
      case Check(job) =>
        if setup.dynamic && (setup.maxThreads < 0 || s.listSize < setup.maxThreads) then Moved(Goto(s, t, pc, AwaitGate(job)))
        else Moved(Goto(s, t, EQ.PutLock(Add(job)), Adding(job)))
      case AwaitGate(job) => if s.gate.Some? then Blocked else Moved(Goto(s, t, pc, Recheck(job)).(gate := Some(t)))
      case Recheck(job) =>
        if s.listSize < setup.maxThreads then Moved(Goto(s, t, pc, Start(job)).(listSize := s.listSize + 1))
        else Moved(Goto(s, t, pc, OpenGate(job)))
      case Start(job) =>
        var s' := Goto(s, t, pc, OpenGate(job));
        Moved(s'.(eq := EQ.Spawn(s'.eq), progs := s'.progs + [Worker]))
      case OpenGate(job) => Moved(Goto(s, t, EQ.PutLock(Add(job)), Adding(job)).(gate := None))
      case Adding(job) => Moved(Goto(s, t, EQ.Idle, Client))
      case Closer => Blocked
      case Closing(i) =>
        if pc.PutDone? then Moved(Goto(s, t, EQ.Idle, Closing(i + 1)))
        else if i < s.listSize then Moved(Goto(s, t, EQ.PutLock(Exit), Closing(i)))
        else Moved(Goto(s, t, EQ.Idle, Joining))
      case Joining => Blocked
  }

  datatype Action = AddJob(job: Option<nat>) | Destroy | Step

  function Act(setup: Setup, s: Pool, t: nat, a: Action): Outcome<Pool>
    requires t < |s.progs| == |s.eq.pcs|
  {
    match a
    case AddJob(job) =>
      if s.progs[t].Client? && (setup.orderly ==> !s.shut) then
        Moved(s.(progs := s.progs[t := Check(job)], submitted := s.submitted + multiset{Add(job)}))
      else Blocked
    case Destroy =>
      if s.progs[t].Closer? && !s.shut && (setup.orderly ==> forall u :: 0 <= u < |s.progs| ==> !InAddJob(s.progs[u])) then
        Moved(s.(progs := s.progs[t := Closing(0)], shut := true, addedBefore := |s.eq.pushed|, poppedBefore := |s.eq.popped|))
      else Blocked
    case Step => Go(setup, s, t)
  }

  function Play(setup: Setup, s: Pool, schedule: seq<(nat, Action)>): Option<Pool>
    requires |s.progs| == |s.eq.pcs|
    decreases |schedule|
  {
    if schedule == [] then Some(s)
    else if schedule[0].0 >= |s.progs| then Play(setup, s, schedule[1..])
    else match Act(setup, s, schedule[0].0, schedule[0].1)
         case Blocked => Play(setup, s, schedule[1..])
         case Fault => None
         case Moved(s') => if |s'.progs| == |s'.eq.pcs| then Play(setup, s', schedule[1..]) else None
  }

  // ---------------------------------------------------------------- invariant

  function Threads(s: Pool): seq<Th>
    requires |s.progs| == |s.eq.pcs|
  {
    seq(|s.progs|, i requires 0 <= i < |s.progs| => Th(s.eq.pcs[i], s.progs[i]))
  }

  /** The event a worker has taken out of the queue and is not finished with. */
  function Held(th: Th): multiset<Event>
  {
    if EQ.Carried(th.pc).Some? then multiset{EQ.Carried(th.pc).value}
    else if th.prog.Running? then multiset{Add(th.prog.job)}
    else multiset{}
  }

  function HeldAll(ths: seq<Th>): multiset<Event>
  {
    if ths == [] then multiset{} else Held(ths[0]) + HeldAll(ths[1..])
  }

  function WorkerUnit(p: Prog): int { if IsWorker(p) || p.Start? then 1 else 0 }

  function ReturnedUnit(p: Prog): int { if p.Returned? then 1 else 0 }

  /** What each piece of a thread's own code says about its queue call. */
  ghost predicate ThOk(th: Th)
  {
    var pc := th.pc;
    match th.prog
    case Worker => EQ.Getting(pc)
    case Adding(job) => EQ.Putting(pc, Add(job))
    case Closing(_) => pc.Idle? || EQ.Putting(pc, Exit)
    case _ => pc.Idle?
  }

  /** How many Exit events the queue has decided on, accepting or rejecting them. */
  function Decided(s: Pool): int
    requires 0 < |s.progs| == |s.eq.pcs|
  {
    match s.progs[CLOSER]
    case Closing(i) => i + if s.eq.pcs[CLOSER].Idle? || EQ.Offered(s.eq.pcs[CLOSER]).Some? then 0 else 1
    case Joining => s.listSize
    case _ => 0
  }

  ghost predicate Shape(s: Pool)
  {
    && 0 < |s.progs| == |s.eq.pcs|
    && EQ.Inv(CFG, s.eq)
    && (forall t :: 0 <= t < |s.progs| ==> ThOk(Th(s.eq.pcs[t], s.progs[t])))
    && (forall t :: 0 <= t < |s.progs| ==> (IsCloser(s.progs[t]) <==> t == CLOSER))
  }

  ghost predicate ListOk(setup: Setup, s: Pool)
  {
    && (forall t :: 0 <= t < |s.progs| && HoldsGate(s.progs[t]) ==> s.gate == Some(t))
    && (s.gate.Some? ==> s.gate.value < |s.progs| && HoldsGate(s.progs[s.gate.value]))
    && s.listSize == Sum(WorkerUnit, s.progs)
    && (0 < s.listSize ==> s.listSize <= setup.maxThreads)
  }

  ghost predicate LedgerOk(s: Pool)
    requires |s.progs| == |s.eq.pcs|
  {
    && multiset(s.eq.popped) == multiset(s.done) + HeldAll(Threads(s))
    && multiset(s.done)[Exit] == Sum(ReturnedUnit, s.progs)
  }

  /** Jobs first, then Exit events; and every Exit decided on was pushed or turned away. */
  ghost predicate ShutOk(s: Pool)
    requires 0 < |s.progs| == |s.eq.pcs|
  {
    && (s.progs[CLOSER].Closer? <==> !s.shut)
    && (!s.shut ==> s.rejected == 0 && forall i :: 0 <= i < |s.eq.pushed| ==> s.eq.pushed[i].Add?)
    && (s.shut ==>
          && (forall t :: 0 <= t < |s.progs| ==> !InAddJob(s.progs[t]))
          && s.addedBefore <= |s.eq.pushed| && s.poppedBefore <= |s.eq.popped|
          && (forall i :: 0 <= i < |s.eq.pushed| ==> (s.eq.pushed[i].Add? <==> i < s.addedBefore))
          && |s.eq.pushed| - s.addedBefore + s.rejected == Decided(s)
          && Decided(s) <= s.listSize
          && (s.progs[CLOSER].Closing? ==>
                s.progs[CLOSER].i <= s.listSize && (!s.eq.pcs[CLOSER].Idle? ==> s.progs[CLOSER].i < s.listSize)))
  }

  ghost predicate Inv(setup: Setup, s: Pool)
  {
    Shape(s) && ListOk(setup, s) && LedgerOk(s) && (setup.orderly ==> ShutOk(s))
  }

  lemma {:induction false} HeldUpdate(ths: seq<Th>, t: nat, th: Th)
    requires t < |ths|
    ensures HeldAll(ths[t := th]) + Held(ths[t]) == HeldAll(ths) + Held(th)
  {
    if t == 0 {
      assert ths[0 := th][1..] == ths[1..];
    } else {
      var ths' := ths[t := th];
      assert ths'[1..] == ths[1..][t - 1 := th] && ths'[0] == ths[0] && ths[1..][t - 1] == ths[t];
      HeldUpdate(ths[1..], t - 1, th);
      calc {
        HeldAll(ths') + Held(ths[t]);
        Held(ths[0]) + HeldAll(ths'[1..]) + Held(ths[t]);
        Held(ths[0]) + (HeldAll(ths'[1..]) + Held(ths[t]));
        Held(ths[0]) + (HeldAll(ths[1..]) + Held(th));
        HeldAll(ths) + Held(th);
      }
    }
  }

  lemma {:induction false} HeldAppend(ths: seq<Th>, th: Th)
    ensures HeldAll(ths + [th]) == HeldAll(ths) + Held(th)
  {
    if ths == [] {
      assert ths + [th] == [th];
    } else {
      assert (ths + [th])[1..] == ths[1..] + [th];
      HeldAppend(ths[1..], th);
    }
  }

  lemma {:induction false} HeldEmpty(ths: seq<Th>)
    requires forall i :: 0 <= i < |ths| ==> Held(ths[i]) == multiset{}
    ensures HeldAll(ths) == multiset{}
  {
    if ths != [] { HeldEmpty(ths[1..]); }
  }

  // ---------------------------------------------------------------- steps inside queue calls

  lemma QueueGoShape(s: Pool, t: nat)
    requires Shape(s) && t < |s.progs| && QueueGo(s, t).Moved?
    ensures Shape(QueueGo(s, t).state) && EQ.Refines(s.eq, t, QueueGo(s, t).state.eq)
  {
    hide EQ.Inv, HeldAll, Sum, QOk, EQ.Run, EQ.EffectOf;
    var s' := QueueGo(s, t).state;
    EQ.StepOfCall(CFG, s.eq, t);
    assert ThOk(Th(s'.eq.pcs[t], s'.progs[t]));
    assert s'.eq.pcs == s.eq.pcs[t := s'.eq.pcs[t]];
  }

  lemma DequeueBalances(popped: multiset<Event>, done: multiset<Event>, held: multiset<Event>, held': multiset<Event>,
                        was: multiset<Event>, now: multiset<Event>)
    requires popped == done + held && held' + was == held + now && was <= now
    ensures popped + (now - was) == done + held'
  {
    assert now == was + (now - was);
    assert held' + was == held + (now - was) + was;
    forall e ensures held'[e] == (held + (now - was))[e] {
      assert (held' + was)[e] == (held + (now - was) + was)[e];
    }
    assert held' == held + (now - was);
  }

  /** What a queue step takes out of the queue is what its thread holds more than before. */
  lemma HeldGrows(s: EQ.State<Event>, t: nat, s': EQ.State<Event>, p: Prog)
    requires t < |s.pcs| && EQ.Refines(s, t, s') && ThOk(Th(s.pcs[t], p))
    requires EQ.InPut(s.pcs[t]) || EQ.InGet(s.pcs[t])
    ensures var was, now := Held(Th(s.pcs[t], p)), Held(Th(s'.pcs[t], p));
            was <= now && multiset(s'.popped) == multiset(s.popped) + (now - was)
  {
    var e := EQ.EffectOf(s, t);
    if e.Dequeue? {
      assert multiset(s.popped + [e.v]) == multiset(s.popped) + multiset{e.v};
    }
  }

  lemma QueueGoLedger(s: Pool, s': Pool, t: nat)
    requires Shape(s) && LedgerOk(s) && t < |s.progs| && EQ.Refines(s.eq, t, s'.eq)
    requires EQ.InPut(s.eq.pcs[t]) || EQ.InGet(s.eq.pcs[t])
    requires s'.progs == s.progs && s'.done == s.done
    ensures |s'.progs| == |s'.eq.pcs| && LedgerOk(s')
  {
    var th' := Th(s'.eq.pcs[t], s.progs[t]);
    assert Threads(s') == Threads(s)[t := th'];
    HeldUpdate(Threads(s), t, th');
    HeldGrows(s.eq, t, s'.eq, s.progs[t]);
    DequeueBalances(multiset(s.eq.popped), multiset(s.done), HeldAll(Threads(s)), HeldAll(Threads(s')),
                    Held(Threads(s)[t]), Held(th'));
  }

  lemma QueueGoShut(s: Pool, s': Pool, t: nat)
    requires Shape(s) && ShutOk(s) && t < |s.progs| && QueueGo(s, t) == Moved(s') && EQ.Refines(s.eq, t, s'.eq) && Shape(s')
    ensures ShutOk(s')
  {
    hide EQ.Inv, HeldAll, Sum, QOk;
    EQ.RunPhase(CFG, s.eq, t);
    assert ThOk(Th(s.eq.pcs[t], s.progs[t]));
    var pc, pc' := s.eq.pcs[t], s'.eq.pcs[t];
    if t == CLOSER {
      assert Decided(s') - Decided(s) == if EQ.Offered(pc).Some? && EQ.Offered(pc') == None then 1 else 0;
    } else {
      assert Decided(s') == Decided(s);
    }
  }

  lemma QueueGoKeepsInv(setup: Setup, s: Pool, t: nat)
    requires Inv(setup, s) && t < |s.progs| && (EQ.InPut(s.eq.pcs[t]) || EQ.InGet(s.eq.pcs[t]))
    ensures !QueueGo(s, t).Fault?
    ensures QueueGo(s, t).Moved? ==> Inv(setup, QueueGo(s, t).state)
  {
    EQ.RunKeepsInv(CFG, s.eq, t);
    if QueueGo(s, t).Moved? {
      var s' := QueueGo(s, t).state;
      QueueGoShape(s, t);
      QueueGoLedger(s, s', t);
      if setup.orderly { QueueGoShut(s, s', t); }
    }
  }

  // ---------------------------------------------------------------- steps of a thread's own code

  /** A step of a thread's own code leaves its queue position alone, starts a call or ends one. */
  predicate OwnMove(pc: EQ.PC<Event>, pc': EQ.PC<Event>)
  {
    || pc' == pc
    || (pc.Idle? && (pc'.PutLock? || pc'.GetTake?))
    || ((pc.PutDone? || pc.GetDone?) && pc'.Idle?)
  }

  lemma OwnShape(s: Pool, t: nat, pc': EQ.PC<Event>, p': Prog)
    requires Shape(s) && t < |s.progs| && OwnMove(s.eq.pcs[t], pc') && ThOk(Th(pc', p'))
    requires IsCloser(p') <==> IsCloser(s.progs[t])
    ensures Shape(Goto(s, t, pc', p'))
  {
    if pc' == s.eq.pcs[t] {
      assert EQ.At(s.eq, t, pc') == s.eq;
    } else {
      EQ.CallKeepsInv(CFG, s.eq, t, pc');
    }
  }

  lemma FinishBalances(done: multiset<Event>, fin: multiset<Event>, held: multiset<Event>, held': multiset<Event>,
                       was: multiset<Event>, now: multiset<Event>)
    requires was == fin + now && held' + was == held + now
    ensures done + held == done + fin + held'
  {
    forall e ensures held[e] == (fin + held')[e] {
      assert (held' + was)[e] == (held + now)[e];
    }
    assert held == fin + held';
  }

  lemma OwnLedger(s: Pool, t: nat, pc': EQ.PC<Event>, p': Prog, fin: seq<Event>)
    requires 0 < |s.progs| == |s.eq.pcs| && LedgerOk(s) && t < |s.progs|
    requires Held(Th(s.eq.pcs[t], s.progs[t])) == multiset(fin) + Held(Th(pc', p'))
    requires multiset(fin)[Exit] == ReturnedUnit(p') - ReturnedUnit(s.progs[t])
    ensures LedgerOk(Goto(s, t, pc', p').(done := s.done + fin))
  {
    hide Held, Sum, HeldAll;
    var s' := Goto(s, t, pc', p').(done := s.done + fin);
    var was, now := Held(Th(s.eq.pcs[t], s.progs[t])), Held(Th(pc', p'));
    assert Threads(s') == Threads(s)[t := Th(pc', p')];
    HeldUpdate(Threads(s), t, Th(pc', p'));
    SumUpdate(ReturnedUnit, s.progs, t, p');
    assert multiset(s.done + fin) == multiset(s.done) + multiset(fin);
    FinishBalances(multiset(s.done), multiset(fin), HeldAll(Threads(s)), HeldAll(Threads(s')), was, now);
  }

  lemma OwnList(setup: Setup, s: Pool, s': Pool, t: nat, p': Prog)
    requires ListOk(setup, s) && t < |s.progs| && s'.progs == s.progs[t := p']
    requires s'.listSize == s.listSize + WorkerUnit(p') - WorkerUnit(s.progs[t])
    requires s'.listSize <= s.listSize || s.listSize < setup.maxThreads
    requires EQ.LockMove(true, t, HoldsGate(s.progs[t]), HoldsGate(p'), s.gate, s'.gate)
    ensures ListOk(setup, s')
  {
    SumUpdate(WorkerUnit, s.progs, t, p');
  }

  /** Steps of workers and adders do not touch what Destroy is about. */
  lemma OtherShut(s: Pool, s': Pool)
    requires Shape(s) && ShutOk(s)
    requires |s'.progs| == |s'.eq.pcs| >= |s.progs| && s'.progs[CLOSER] == s.progs[CLOSER] && s'.eq.pcs[CLOSER] == s.eq.pcs[CLOSER]
    requires s'.eq.pushed == s.eq.pushed && s'.eq.popped == s.eq.popped
    requires s'.shut == s.shut && s'.rejected == s.rejected && s'.addedBefore == s.addedBefore && s'.poppedBefore == s.poppedBefore
    requires s.shut ==> s'.listSize == s.listSize && forall u :: 0 <= u < |s'.progs| ==> !InAddJob(s'.progs[u])
    ensures ShutOk(s')
  {
    assert Decided(s') == Decided(s) || !s.shut;
  }

  /** A step of a worker's or an adder's own code, told by what it changes. */
  lemma OtherStep(setup: Setup, s: Pool, t: nat, pc': EQ.PC<Event>, p': Prog, fin: seq<Event>, s': Pool)
    requires Inv(setup, s) && t < |s.progs| && !IsCloser(s.progs[t]) && !IsCloser(p')
    requires s' == Goto(s, t, pc', p').(done := s.done + fin, listSize := s'.listSize, gate := s'.gate, submitted := s'.submitted)
    requires OwnMove(s.eq.pcs[t], pc') && ThOk(Th(pc', p'))
    requires Held(Th(s.eq.pcs[t], s.progs[t])) == multiset(fin) + Held(Th(pc', p'))
    requires multiset(fin)[Exit] == ReturnedUnit(p') - ReturnedUnit(s.progs[t])
    requires s'.listSize == s.listSize + WorkerUnit(p') - WorkerUnit(s.progs[t])
    requires s'.listSize <= s.listSize || s.listSize < setup.maxThreads
    requires setup.orderly && s.shut ==> s'.listSize == s.listSize && !InAddJob(p')
    requires EQ.LockMove(true, t, HoldsGate(s.progs[t]), HoldsGate(p'), s.gate, s'.gate)
    ensures Inv(setup, s')
  {
    hide EQ.Inv, HeldAll, Sum, Decided;
    OwnShape(s, t, pc', p');
    assert Shape(s');
    OwnLedger(s, t, pc', p', fin);
    assert Threads(s') == Threads(Goto(s, t, pc', p').(done := s.done + fin));
    assert LedgerOk(s');
    OwnList(setup, s, s', t, p');
    if setup.orderly { OtherShut(s, s'); }
  }

  /** A worker takes the event Get returned, which is always there. */
  lemma ReceiveShape(setup: Setup, s: Pool, t: nat)
    requires t < |s.progs| == |s.eq.pcs| && s.progs[t].Worker? && s.eq.pcs[t].GetDone? && s.eq.pcs[t].out.Some?
    ensures Held(Th(s.eq.pcs[t], s.progs[t])) == multiset{s.eq.pcs[t].out.value}
    ensures Go(setup, s, t) == match s.eq.pcs[t].out.value
                               case Exit => Moved(Goto(s, t, EQ.Idle, Returned).(done := s.done + [Exit]))
                               case Add(job) => Moved(Goto(s, t, EQ.Idle, Running(job)))
  {
    hide QueueGo;
  }

  lemma ReceiveKeepsInv(setup: Setup, s: Pool, t: nat)
    requires Inv(setup, s) && t < |s.progs| && s.progs[t].Worker? && s.eq.pcs[t].GetDone?
    ensures Go(setup, s, t).Moved? && Inv(setup, Go(setup, s, t).state)
  {
    EQ.GetHasEvent(CFG, s.eq, t);
    ReceiveShape(setup, s, t);
    hide *;
    var s' := Go(setup, s, t).state;
    var e := s.eq.pcs[t].out.value;
    assert s.done + [] == s.done;
    assert multiset([e]) == multiset{e};
    if e.Exit? { ReceiveExit(setup, s, t); } else { ReceiveAdd(setup, s, t); }
  }

  lemma ReceiveExit(setup: Setup, s: Pool, t: nat)
    requires Inv(setup, s) && t < |s.progs| && s.progs[t].Worker? && s.eq.pcs[t] == EQ.GetDone(Some(Exit))
    ensures Inv(setup, Goto(s, t, EQ.Idle, Returned).(done := s.done + [Exit]))
  {
    hide EQ.Inv, HeldAll, ListOk, LedgerOk, ShutOk;
    assert multiset([Exit]) == multiset{Exit};
    OtherStep(setup, s, t, EQ.Idle, Returned, [Exit], Goto(s, t, EQ.Idle, Returned).(done := s.done + [Exit]));
  }

  lemma ReceiveAdd(setup: Setup, s: Pool, t: nat)
    requires Inv(setup, s) && t < |s.progs| && s.progs[t].Worker? && s.eq.pcs[t].GetDone?
    requires s.eq.pcs[t].out.Some? && s.eq.pcs[t].out.value.Add?
    ensures Inv(setup, Goto(s, t, EQ.Idle, Running(s.eq.pcs[t].out.value.job)))
  {
    hide HeldAll, EQ.Inv, ListOk, LedgerOk, ShutOk;
    var s' := Goto(s, t, EQ.Idle, Running(s.eq.pcs[t].out.value.job));
    assert s.done + [] == s.done;
    OtherStep(setup, s, t, EQ.Idle, s'.progs[t], [], s');
  }

  /** A worker calls Get, or finishes a job. */
  lemma WorkerKeepsInv(setup: Setup, s: Pool, t: nat)
    requires Inv(setup, s) && t < |s.progs|
    requires (s.progs[t].Worker? && s.eq.pcs[t].Idle?) || s.progs[t].Running?
    ensures Go(setup, s, t).Moved? && Inv(setup, Go(setup, s, t).state)
  {
    hide EQ.Inv, HeldAll, Sum, ListOk, LedgerOk, ShutOk, QOk, QueueGo, EQ.MayGet, EQ.MayPut, EQ.Run, EQ.EffectOf;
    assert ThOk(Th(s.eq.pcs[t], s.progs[t]));
    var s' := Go(setup, s, t).state;
    assert s.done + [] == s.done;
    if s.progs[t].Running? {
      OtherStep(setup, s, t, EQ.Idle, Worker, [Add(s.progs[t].job)], s');
    } else {
      OtherStep(setup, s, t, EQ.GetTake, Worker, [], s');
    }
  }

  /** What AddJob's own steps change; the one that starts a worker is separate. */
  lemma AdderShape(setup: Setup, s: Pool, t: nat)
    requires t < |s.progs| == |s.eq.pcs| && InAddJob(s.progs[t]) && !s.progs[t].Start? && ThOk(Th(s.eq.pcs[t], s.progs[t]))
    requires !EQ.InPut(s.eq.pcs[t]) && Go(setup, s, t).Moved?
    ensures var s' := Go(setup, s, t).state;
            && |s'.progs| == |s'.eq.pcs| == |s.progs|
            && s' == Goto(s, t, s'.eq.pcs[t], s'.progs[t]).(listSize := s'.listSize, gate := s'.gate)
            && s'.listSize == s.listSize + WorkerUnit(s'.progs[t])
            && (s'.listSize == s.listSize || (s.listSize < setup.maxThreads && s.progs[t].Recheck?))
            && EQ.LockMove(true, t, HoldsGate(s.progs[t]), HoldsGate(s'.progs[t]), s.gate, s'.gate)
            && (if s.progs[t].Adding? then s'.progs[t].Client? else InAddJob(s'.progs[t]))
            && s'.eq.pcs[t] == if s'.progs[t].Adding? then EQ.PutLock(Add(s'.progs[t].job)) else EQ.Idle
  {
    hide QueueGo, EQ.MayGet, EQ.MayPut;
    assert if s.progs[t].Adding? then s.eq.pcs[t].PutDone? else s.eq.pcs[t].Idle?;
    match s.progs[t]
    case Check(_) =>
    case AwaitGate(_) =>
    case Recheck(_) =>
    case OpenGate(_) =>
    case Adding(_) =>
  }

  lemma AdderThread(pc: EQ.PC<Event>, p: Prog, p': Prog)
    requires InAddJob(p) && ThOk(Th(pc, p)) && !EQ.InPut(pc) && (InAddJob(p') || p'.Client?)
    requires p.Adding? ==> p'.Client?
    ensures var pc' := if p'.Adding? then EQ.PutLock(Add(p'.job)) else EQ.Idle;
            && OwnMove(pc, pc') && ThOk(Th(pc', p')) && Held(Th(pc', p')) == multiset{} == Held(Th(pc, p))
            && !IsCloser(p') && ReturnedUnit(p') == 0
  {
    hide EQ.MayGet, EQ.MayPut, EQ.Run, EQ.EffectOf;
    match p
    case Adding(_) =>
    case _ =>
  }

  lemma AdderKeepsInv(setup: Setup, s: Pool, t: nat)
    requires Inv(setup, s) && t < |s.progs| && InAddJob(s.progs[t]) && !s.progs[t].Start?
    requires !EQ.InPut(s.eq.pcs[t]) && Go(setup, s, t).Moved?
    ensures Inv(setup, Go(setup, s, t).state)
  {
    hide EQ.Inv, LedgerOk, ListOk, Go;
    AdderShape(setup, s, t);
    var s' := Go(setup, s, t).state;
    AdderThread(s.eq.pcs[t], s.progs[t], s'.progs[t]);
    assert s.done + [] == s.done;
    hide Held, OwnMove, ThOk;
    OtherStep(setup, s, t, s'.eq.pcs[t], s'.progs[t], [], s');
  }

  lemma SpawnKeepsInv(setup: Setup, s: Pool)
    requires Inv(setup, s) && s.listSize < setup.maxThreads && (setup.orderly ==> !s.shut)
    ensures Inv(setup, s.(eq := EQ.Spawn(s.eq), progs := s.progs + [Worker], listSize := s.listSize + 1))
  {
    hide EQ.Inv, HeldAll, Sum;
    var s' := s.(eq := EQ.Spawn(s.eq), progs := s.progs + [Worker], listSize := s.listSize + 1);
    EQ.SpawnKeepsInv(CFG, s.eq);
    SumAppend(WorkerUnit, s.progs, Worker);
    SumAppend(ReturnedUnit, s.progs, Worker);
    assert Threads(s') == Threads(s) + [Th(EQ.Idle, Worker)];
    HeldAppend(Threads(s), Th(EQ.Idle, Worker));
    assert Shape(s');
    if setup.orderly { OtherShut(s, s'); }
  }

  lemma StartKeepsInv(setup: Setup, s: Pool, t: nat)
    requires Inv(setup, s) && t < |s.progs| && s.progs[t].Start?
    ensures Go(setup, s, t).Moved? && Inv(setup, Go(setup, s, t).state)
  {
    hide EQ.Inv, HeldAll, Sum, LedgerOk;
    var pc, p' := s.eq.pcs[t], OpenGate(s.progs[t].job);
    assert ThOk(Th(pc, s.progs[t]));
    SumBounds(WorkerUnit, s.progs);
    var s1 := Goto(s, t, pc, p').(listSize := s.listSize - 1);
    assert s.done + [] == s.done;
    OtherStep(setup, s, t, pc, p', [], s1);
    SpawnKeepsInv(setup, s1);
  }

  lemma CloserShape(setup: Setup, s: Pool, t: nat)
    requires t < |s.progs| == |s.eq.pcs| && s.progs[t].Closing? && ThOk(Th(s.eq.pcs[t], s.progs[t])) && !EQ.InPut(s.eq.pcs[t])
    ensures Go(setup, s, t).Moved?
    ensures var s' := Go(setup, s, t).state;
            && |s'.progs| == |s'.eq.pcs| == |s.progs|
            && var pc', p' := s'.eq.pcs[t], s'.progs[t];
            && s' == Goto(s, t, pc', p')
            && IsCloser(p') && OwnMove(s.eq.pcs[t], pc') && ThOk(Th(pc', p'))
            && WorkerUnit(p') == 0 && ReturnedUnit(p') == 0 && !HoldsGate(p')
            && Held(Th(pc', p')) == multiset{} == Held(Th(s.eq.pcs[t], s.progs[t]))
  {
    hide QueueGo, EQ.MayGet, EQ.MayPut;
    var pc := s.eq.pcs[t];
    if pc.PutDone? {
    } else if s.progs[t].i < s.listSize {
      assert pc.Idle?;
    } else {
      assert pc.Idle?;
    }
  }

  lemma CloserShut(setup: Setup, s: Pool)
    requires Shape(s) && ShutOk(s) && s.progs[CLOSER].Closing? && !EQ.InPut(s.eq.pcs[CLOSER])
    requires Go(setup, s, CLOSER).Moved? && Shape(Go(setup, s, CLOSER).state)
    ensures ShutOk(Go(setup, s, CLOSER).state)
  {
    hide EQ.Inv, QueueGo;
    assert ThOk(Th(s.eq.pcs[CLOSER], s.progs[CLOSER]));
  }

  lemma CloserKeepsInv(setup: Setup, s: Pool, t: nat)
    requires Inv(setup, s) && t < |s.progs| && s.progs[t].Closing? && !EQ.InPut(s.eq.pcs[t])
    ensures Go(setup, s, t).Moved? && Inv(setup, Go(setup, s, t).state)
  {
    hide EQ.Inv, ListOk, LedgerOk, ShutOk, Go;
    assert IsCloser(s.progs[t]);
    CloserShape(setup, s, t);
    var s' := Go(setup, s, t).state;
    var pc', p' := s'.eq.pcs[t], s'.progs[t];
    OwnShape(s, t, pc', p');
    hide ThOk, Held, OwnMove;
    OwnLedger(s, t, pc', p', []);
    assert s.done + [] == s.done;
    OwnList(setup, s, s', t, p');
    if setup.orderly { CloserShut(setup, s); }
  }

  /** Every step of every thread keeps the pool's invariant and misuses no memory. */
  lemma GoKeepsInv(setup: Setup, s: Pool, t: nat)
    requires Inv(setup, s) && t < |s.progs|
    ensures !Go(setup, s, t).Fault?
    ensures Go(setup, s, t).Moved? ==> Inv(setup, Go(setup, s, t).state)
  {
    assert ThOk(Th(s.eq.pcs[t], s.progs[t]));
    if EQ.InPut(s.eq.pcs[t]) || EQ.InGet(s.eq.pcs[t]) {
      QueueGoKeepsInv(setup, s, t);
    } else if s.progs[t].Worker? && s.eq.pcs[t].GetDone? {
      ReceiveKeepsInv(setup, s, t);
    } else if s.progs[t].Worker? || s.progs[t].Running? {
      WorkerKeepsInv(setup, s, t);
    } else if s.progs[t].Start? {
      StartKeepsInv(setup, s, t);
    } else if InAddJob(s.progs[t]) {
      if Go(setup, s, t).Moved? { AdderKeepsInv(setup, s, t); }
    } else if s.progs[t].Closing? {
      CloserKeepsInv(setup, s, t);
    }
  }

  lemma DestroyKeepsInv(setup: Setup, s: Pool, t: nat)
    requires Inv(setup, s) && t < |s.progs| && Act(setup, s, t, Destroy).Moved?
    ensures Inv(setup, Act(setup, s, t, Destroy).state)
  {
    hide EQ.Inv, HeldAll, Sum;
    var s' := Act(setup, s, t, Destroy).state;
    assert ThOk(Th(s.eq.pcs[t], s.progs[t]));
    assert s.done + [] == s.done && EQ.At(s.eq, t, s.eq.pcs[t]) == s.eq;
    OwnShape(s, t, s.eq.pcs[t], Closing(0));
    OwnLedger(s, t, s.eq.pcs[t], Closing(0), []);
    assert Threads(s') == Threads(Goto(s, t, s.eq.pcs[t], Closing(0)));
    OwnList(setup, s, s', t, Closing(0));
  }

  lemma AddJobKeepsInv(setup: Setup, s: Pool, t: nat, job: Option<nat>)
    requires Inv(setup, s) && t < |s.progs| && Act(setup, s, t, AddJob(job)).Moved?
    ensures Inv(setup, Act(setup, s, t, AddJob(job)).state)
  {
    hide EQ.Inv, HeldAll, Sum, LedgerOk, QOk;
    assert ThOk(Th(s.eq.pcs[t], s.progs[t]));
    assert s.done + [] == s.done && EQ.At(s.eq, t, s.eq.pcs[t]) == s.eq;
    OtherStep(setup, s, t, s.eq.pcs[t], Check(job), [], Act(setup, s, t, AddJob(job)).state);
  }

  /** Whatever happens next, the pool's invariant is kept and no memory is misused. */
  lemma ActKeepsInv(setup: Setup, s: Pool, t: nat, a: Action)
    requires Inv(setup, s) && t < |s.progs|
    ensures !Act(setup, s, t, a).Fault?
    ensures Act(setup, s, t, a).Moved? ==> Inv(setup, Act(setup, s, t, a).state)
  {
    hide Go, ListOk, LedgerOk, ShutOk, EQ.Inv;
    match a
    case Step => GoKeepsInv(setup, s, t);
    case AddJob(job) => if Act(setup, s, t, a).Moved? { AddJobKeepsInv(setup, s, t, job); }
    case Destroy => if Act(setup, s, t, a).Moved? { DestroyKeepsInv(setup, s, t); }
  }

  lemma {:induction false} PlayKeepsInv(setup: Setup, s: Pool, schedule: seq<(nat, Action)>)
    requires Inv(setup, s)
    ensures Play(setup, s, schedule).Some? && Inv(setup, Play(setup, s, schedule).value)
    decreases |schedule|
  {
    hide ListOk, LedgerOk, ShutOk, EQ.Inv, Act;
    if schedule != [] {
      if schedule[0].0 >= |s.progs| {
        PlayKeepsInv(setup, s, schedule[1..]);
      } else {
        ActKeepsInv(setup, s, schedule[0].0, schedule[0].1);
        var o := Act(setup, s, schedule[0].0, schedule[0].1);
        PlayKeepsInv(setup, if o.Moved? then o.state else s, schedule[1..]);
      }
    }
  }

  lemma {:induction false} WorkersAtEnd(ps: seq<Prog>, k: nat)
    requires k <= |ps|
    requires forall i :: 0 <= i < |ps| ==> WorkerUnit(ps[i]) == if i < k then 0 else 1
    ensures Sum(WorkerUnit, ps) == |ps| - k
  {
    if ps != [] {
      WorkersAtEnd(ps[1..], if k == 0 then 0 else k - 1);
    }
  }

  lemma InitInv(setup: Setup, maxSize: nat, clients: nat)
    ensures Inv(setup, Init(setup, maxSize, clients))
  {
    hide EQ.Inv, Sum, HeldAll, LockFreeQueue.Init;
    var s := Init(setup, maxSize, clients);
    EQ.InitInv(CFG, Exit, maxSize, |s.progs|);
    WorkersAtEnd(s.progs, 1 + clients);
    SumZero(ReturnedUnit, s.progs);
    HeldEmpty(Threads(s));
  }

  // ---------------------------------------------------------------- what the invariant means

  /** The pool after any run whatever from its creation. */
  function After(setup: Setup, maxSize: nat, clients: nat, schedule: seq<(nat, Action)>): Option<Pool>
  {
    Play(setup, Init(setup, maxSize, clients), schedule)
  }

  /**
   * Job conservation: in every reachable state the events the queue accepted are exactly those
   * still queued, those one worker holds, and those done with; so no accepted job runs twice or
   * is lost. The thread list never outgrows the maximum, however many adders race.
   */
  lemma JobConservation(setup: Setup, maxSize: nat, clients: nat, schedule: seq<(nat, Action)>)
    ensures After(setup, maxSize, clients, schedule).Some?
    ensures var s := After(setup, maxSize, clients, schedule).value;
            && Inv(setup, s)
            && multiset(s.eq.pushed) == multiset(Live(s.eq.q)) + HeldAll(Threads(s)) + multiset(s.done)
            && (0 < s.listSize ==> s.listSize <= setup.maxThreads)
  {
    hide Live, QOk, Sum, HeldAll;
    InitInv(setup, maxSize, clients);
    PlayKeepsInv(setup, Init(setup, maxSize, clients), schedule);
    var s := After(setup, maxSize, clients, schedule).value;
    assert multiset(s.eq.popped + Live(s.eq.q)) == multiset(s.eq.popped) + multiset(Live(s.eq.q));
  }

  predicate AllReturned(s: Pool)
  {
    forall t :: 0 <= t < |s.progs| && IsWorker(s.progs[t]) ==> s.progs[t].Returned?
  }

  function CountExits(es: seq<Event>): nat
  {
    multiset(es)[Exit]
  }

  lemma {:induction false} ExitsFrom(es: seq<Event>, n: nat)
    requires forall i :: 0 <= i < |es| ==> (es[i].Add? <==> i < n)
    ensures CountExits(es) == if |es| <= n then 0 else |es| - n
  {
    if es != [] {
      var k := |es| - 1;
      ExitsFrom(es[..k], n);
      assert es == es[..k] + [es[k]];
      assert multiset(es) == multiset(es[..k]) + multiset{es[k]};
    }
  }

  lemma {:induction false} SameUnits(ps: seq<Prog>)
    requires forall t :: 0 <= t < |ps| ==> !ps[t].Start? && (IsWorker(ps[t]) ==> ps[t].Returned?)
    ensures Sum(WorkerUnit, ps) == Sum(ReturnedUnit, ps)
  {
    if ps != [] { SameUnits(ps[1..]); }
  }

  /** The Exit events among the popped ones, once Destroy has begun. */
  lemma PoppedExits(setup: Setup, s: Pool)
    requires Inv(setup, s) && setup.orderly && s.shut
    ensures CountExits(s.eq.popped) == if |s.eq.popped| <= s.addedBefore then 0 else |s.eq.popped| - s.addedBefore
    ensures CountExits(s.eq.pushed) == |s.eq.pushed| - s.addedBefore
    ensures |s.eq.pushed| == |s.eq.popped| + |Live(s.eq.q)|
  {
    hide Live, QOk, Sum, HeldAll, EQ.Exclusive;
    assert s.eq.pushed == s.eq.popped + Live(s.eq.q);
    forall i | 0 <= i < |s.eq.popped| ensures s.eq.popped[i].Add? <==> i < s.addedBefore {
      assert s.eq.popped[i] == s.eq.pushed[i];
    }
    ExitsFrom(s.eq.popped, s.addedBefore);
    ExitsFrom(s.eq.pushed, s.addedBefore);
  }

  lemma AllExitsDone(setup: Setup, s: Pool)
    requires Inv(setup, s) && setup.orderly && s.shut && AllReturned(s)
    ensures HeldAll(Threads(s)) == multiset{} && multiset(s.eq.popped) == multiset(s.done)
    ensures CountExits(s.done) == s.listSize
  {
    forall t | 0 <= t < |s.progs|
      ensures Held(Threads(s)[t]) == multiset{} && !s.progs[t].Start?
    {
      assert ThOk(Th(s.eq.pcs[t], s.progs[t]));
    }
    hide EQ.Inv, ShutOk, Held, Sum;
    SameUnits(s.progs);
    HeldEmpty(Threads(s));
  }

  /**
   * Shutdown drains: once Destroy has begun and every worker (at least one) has returned, each
   * worker has consumed exactly one Exit, no Exit was turned away, nothing is left in the queue
   * or in a worker's hands, and the events done with are exactly those that were accepted.
   */
  lemma ReturnedMeansDrained(setup: Setup, s: Pool)
    requires Inv(setup, s) && setup.orderly && s.shut && AllReturned(s) && 0 < s.listSize
    ensures CountExits(s.done) == s.listSize && s.rejected == 0
    ensures Live(s.eq.q) == [] && HeldAll(Threads(s)) == multiset{}
    ensures multiset(s.done) == multiset(s.eq.pushed)
  {
    hide Live, Sum, HeldAll, ListOk, LedgerOk;
    PoppedExits(setup, s);
    AllExitsDone(setup, s);
    assert s.eq.pushed == s.eq.popped + Live(s.eq.q);
    assert |s.eq.pushed| - s.addedBefore + s.rejected == Decided(s) <= s.listSize;
    hide EQ.Inv, ShutOk;
    assert Live(s.eq.q) == [];
    assert s.eq.pushed == s.eq.popped;
  }

  // ---------------------------------------------------------------- where nothing moves

  ghost predicate Stuck(setup: Setup, s: Pool)
    requires |s.progs| == |s.eq.pcs|
  {
    forall t :: 0 <= t < |s.progs| ==> !Go(setup, s, t).Moved?
  }

  lemma StuckThread(setup: Setup, s: Pool, t: nat)
    requires Inv(setup, s) && t < |s.progs| && !Go(setup, s, t).Moved?
    ensures !EQ.Run(CFG, s.eq, t).Moved?
    ensures EQ.InPut(s.eq.pcs[t]) || EQ.InGet(s.eq.pcs[t])
            || (s.eq.pcs[t].Idle? && !s.progs[t].Worker? && !s.progs[t].Running? && !s.progs[t].Closing? && !HoldsGate(s.progs[t])
                && !s.progs[t].Check? && !s.progs[t].Adding? && (s.progs[t].AwaitGate? ==> s.gate.Some?))
  {
    hide EQ.Inv, Sum, HeldAll, ListOk, LedgerOk, ShutOk;
    assert ThOk(Th(s.eq.pcs[t], s.progs[t]));
    GoKeepsInv(setup, s, t);
    if s.eq.pcs[t].GetDone? { EQ.GetHasEvent(CFG, s.eq, t); }
  }

  lemma HolderMoves(setup: Setup, s: Pool, t: nat)
    requires Inv(setup, s) && t < |s.progs| && HoldsGate(s.progs[t])
    ensures Go(setup, s, t).Moved?
  {
    hide EQ.Inv, Sum, HeldAll, ListOk, LedgerOk, ShutOk, QueueGo;
    assert ThOk(Th(s.eq.pcs[t], s.progs[t]));
  }

  lemma GateFree(setup: Setup, s: Pool)
    requires Inv(setup, s) && Stuck(setup, s)
    ensures s.gate == None
  {
    if s.gate.Some? {
      HolderMoves(setup, s, s.gate.value);
    }
  }

  /** Where nothing moves no call of AddJob is under way, and workers wait for an event or have returned. */
  lemma StuckThreads(setup: Setup, s: Pool)
    requires Inv(setup, s) && Stuck(setup, s)
    ensures forall t :: 0 <= t < |s.progs| ==>
              && Held(Th(s.eq.pcs[t], s.progs[t])) == multiset{} && !InAddJob(s.progs[t]) && !s.progs[t].Closing?
              && (IsWorker(s.progs[t]) ==> s.progs[t].Returned? || s.eq.pcs[t].GetTake?)
    ensures (exists t :: 0 <= t < |s.progs| && s.eq.pcs[t].GetTake?) ==> Live(s.eq.q) == []
  {
    hide EQ.Inv, Sum, HeldAll, ListOk, LedgerOk, ShutOk, Go, Live, EQ.Run;
    GateFree(setup, s);
    forall t | 0 <= t < |s.progs| ensures !EQ.Run(CFG, s.eq, t).Moved? { StuckThread(setup, s, t); }
    EQ.StuckMeansEmpty(CFG, s.eq);
    forall t | 0 <= t < |s.progs|
      ensures Held(Th(s.eq.pcs[t], s.progs[t])) == multiset{} && !InAddJob(s.progs[t]) && !s.progs[t].Closing?
              && (IsWorker(s.progs[t]) ==> s.progs[t].Returned? || s.eq.pcs[t].GetTake?)
    {
      StuckThread(setup, s, t);
      assert ThOk(Th(s.eq.pcs[t], s.progs[t]));
    }
  }
}
