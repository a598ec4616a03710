/**
 * What Destroy achieves: every run of the pool after Destroy has begun is finite, and where it
 * ends all workers have returned exactly if no Exit event was turned away by the full queue.
 * That can be told beforehand: no run hangs exactly if the queued events and the workers
 * together fit the queue.
 */
module PoolShutdown {
  import opened Basics
  import opened LockFreeQueue
  import EQ = EventQueue
  import opened ThreadPool

  // ---------------------------------------------------------------- where a run ends

  /** Where nothing moves after Destroy its Exits are put, and workers wait for an event or have returned. */
  lemma NothingMoves(setup: Setup, s: Pool)
    requires Inv(setup, s) && setup.orderly && s.shut && Stuck(setup, s)
    ensures s.progs[CLOSER].Joining?
    ensures forall t :: 0 <= t < |s.progs| ==>
                          Held(Th(s.eq.pcs[t], s.progs[t])) == multiset{}
                          && !s.progs[t].Start?
                          && (IsWorker(s.progs[t]) ==> s.progs[t].Returned? || s.eq.pcs[t].GetTake?)
    ensures !AllReturned(s) ==> Live(s.eq.q) == []
  {
    hide EQ.Inv, Sum, HeldAll, ListOk, LedgerOk, Go, Live, EQ.Run;
    StuckThreads(setup, s);
    assert IsCloser(s.progs[CLOSER]);
  }

  lemma {:induction false} UnitsOrder(ps: seq<Prog>)
    ensures Sum(ReturnedUnit, ps) <= Sum(WorkerUnit, ps)
    ensures (forall t :: 0 <= t < |ps| ==> ReturnedUnit(ps[t]) == WorkerUnit(ps[t])) <==> Sum(ReturnedUnit, ps) == Sum(WorkerUnit, ps)
  {
    if ps != [] {
      UnitsOrder(ps[1..]);
      assert (forall t :: 0 <= t < |ps| ==> ReturnedUnit(ps[t]) == WorkerUnit(ps[t]))
        <==> ReturnedUnit(ps[0]) == WorkerUnit(ps[0])
             && forall t :: 0 <= t < |ps[1..]| ==> ReturnedUnit(ps[1..][t]) == WorkerUnit(ps[1..][t]) by {
        if forall t :: 0 <= t < |ps| ==> ReturnedUnit(ps[t]) == WorkerUnit(ps[t]) {
          forall t | 0 <= t < |ps[1..]| ensures ReturnedUnit(ps[1..][t]) == WorkerUnit(ps[1..][t]) {
            assert ps[1..][t] == ps[t + 1];
          }
        }
        if ReturnedUnit(ps[0]) == WorkerUnit(ps[0]) && forall t :: 0 <= t < |ps[1..]| ==> ReturnedUnit(ps[1..][t]) == WorkerUnit(ps[1..][t]) {
          forall t | 0 <= t < |ps| ensures ReturnedUnit(ps[t]) == WorkerUnit(ps[t]) {
            if t > 0 { assert ps[t] == ps[1..][t - 1]; }
          }
        }
      }
    }
  }

  /**
   * Where a run after Destroy ends, every accepted job has been run, as many workers have
   * returned as Exit events were accepted, and so all have exactly if none was turned away.
   */
  lemma StuckOutcome(setup: Setup, s: Pool)
    requires Inv(setup, s) && setup.orderly && s.shut && Stuck(setup, s) && 0 < s.listSize
    ensures multiset(s.done) == multiset(s.eq.pushed) && Live(s.eq.q) == []
    ensures Sum(ReturnedUnit, s.progs) == s.listSize - s.rejected
    ensures AllReturned(s) <==> s.rejected == 0
  {
    hide EQ.Inv, Sum, HeldAll, Go, Live, EQ.Exclusive, QOk;
    NothingMoves(setup, s);
    if AllReturned(s) { ReturnedMeansDrained(setup, s); }
    PoppedExits(setup, s);
    assert s.eq.pushed == s.eq.popped by { PushedSplit(setup, s); }
    HeldEmpty(Threads(s));
    UnitsOrder(s.progs);
  }

  lemma PushedSplit(setup: Setup, s: Pool)
    requires Inv(setup, s)
    ensures s.eq.pushed == s.eq.popped + Live(s.eq.q)
  {
  }

  // ---------------------------------------------------------------- runs are finite

  function WorkerRank(th: Th): int
  {
    match th.prog
    case Worker => if th.pc.Idle? then 12 else 2
    case Running(_) => 1
    case _ => 0
  }

  function CloserRank(s: Pool): int
    requires 0 < |s.progs| == |s.eq.pcs|
  {
    match s.progs[CLOSER]
    case Closing(i) => if s.eq.pcs[CLOSER].Idle? then 1 + 20 * (s.listSize - i) else 5 + 20 * (s.listSize - i - 1)
    case _ => 0
  }

  /** Events that are still to be put, queued, or in a worker's hands. */
  function Open(s: Pool): int
    requires 0 < |s.progs| == |s.eq.pcs|
  {
    s.listSize - Decided(s) + |s.eq.pushed| - |s.done|
  }

  /** What is left to do once Destroy has begun. */
  function Remaining(s: Pool): int
    requires 0 < |s.progs| == |s.eq.pcs|
  {
    EQ.Dead(s.eq.q) + Sum(EQ.Rank, s.eq.pcs) + Sum(WorkerRank, Threads(s)) + CloserRank(s) + 20 * Open(s)
  }

  lemma RemainingNonNegative(setup: Setup, s: Pool)
    requires Inv(setup, s) && setup.orderly && s.shut
    ensures 0 <= Remaining(s)
  {
    hide HeldAll, Live, EQ.Exclusive;
    SumBounds(EQ.Rank, s.eq.pcs);
    SumBounds(WorkerRank, Threads(s));
    PushedSplit(setup, s);
    assert |multiset(s.eq.popped)| == |multiset(s.done)| + |HeldAll(Threads(s))|;
  }

  lemma QueueStepDecreases(setup: Setup, s: Pool, t: nat)
    requires Inv(setup, s) && setup.orderly && s.shut && t < |s.progs| && (EQ.InPut(s.eq.pcs[t]) || EQ.InGet(s.eq.pcs[t]))
    requires QueueGo(s, t).Moved? && Inv(setup, QueueGo(s, t).state)
    ensures Remaining(QueueGo(s, t).state) < Remaining(s)
  {
    hide HeldAll, Live, EQ.Exclusive, EQ.Inv, QOk, Sum, EQ.Run, EQ.Dead;
    var s' := QueueGo(s, t).state;
    QueueGoShape(s, t);
    EQ.RunDecreases(CFG, s.eq, t);
    EQ.RunPhase(CFG, s.eq, t);
    SumUpdate(EQ.Rank, s.eq.pcs, t, s'.eq.pcs[t]);
    assert Threads(s') == Threads(s)[t := Th(s'.eq.pcs[t], s.progs[t])];
    SumUpdate(WorkerRank, Threads(s), t, Th(s'.eq.pcs[t], s.progs[t]));
    assert ThOk(Th(s.eq.pcs[t], s.progs[t]));
    assert WorkerRank(Th(s'.eq.pcs[t], s.progs[t])) == WorkerRank(Th(s.eq.pcs[t], s.progs[t]));
    assert CloserRank(s') == CloserRank(s);
    assert Open(s') <= Open(s) by { OpenShrinks(setup, s, s', t); }
  }

  lemma OpenShrinks(setup: Setup, s: Pool, s': Pool, t: nat)
    requires Inv(setup, s) && Inv(setup, s') && setup.orderly && s.shut && t < |s.progs|
    requires QueueGo(s, t) == Moved(s') && EQ.Refines(s.eq, t, s'.eq)
    ensures Open(s') <= Open(s)
  {
    hide HeldAll, Live, EQ.Exclusive, EQ.Inv, QOk, Sum, EQ.Run;
    assert |s.eq.pushed| - s.addedBefore + s.rejected == Decided(s);
    assert |s'.eq.pushed| - s.addedBefore + s'.rejected == Decided(s');
  }

  lemma OwnShape(setup: Setup, s: Pool, t: nat)
    requires Inv(setup, s) && setup.orderly && s.shut && t < |s.progs| && !EQ.InPut(s.eq.pcs[t]) && !EQ.InGet(s.eq.pcs[t])
    requires Go(setup, s, t).Moved?
    ensures var s' := Go(setup, s, t).state;
            && 0 < |s'.progs| == |s.progs| == |s'.eq.pcs|
            && s'.eq == EQ.At(s.eq, t, s'.eq.pcs[t]) && s'.progs == s.progs[t := s'.progs[t]]
            && EQ.Rank(s'.eq.pcs[t]) + WorkerRank(Th(s'.eq.pcs[t], s'.progs[t])) + CloserRank(s') + 20 * Open(s')
               < EQ.Rank(s.eq.pcs[t]) + WorkerRank(Th(s.eq.pcs[t], s.progs[t])) + CloserRank(s) + 20 * Open(s)
  {
    hide HeldAll, EQ.Inv, Sum, EQ.Run, EQ.Dead, LedgerOk, ListOk;
    assert ThOk(Th(s.eq.pcs[t], s.progs[t]));
    assert !InAddJob(s.progs[t]);
    assert (t == CLOSER) == (s.progs[t].Closing? || s.progs[t].Joining?);
  }

  lemma OwnStepDecreases(setup: Setup, s: Pool, t: nat)
    requires Inv(setup, s) && setup.orderly && s.shut && t < |s.progs| && !EQ.InPut(s.eq.pcs[t]) && !EQ.InGet(s.eq.pcs[t])
    requires Go(setup, s, t).Moved?
    ensures |Go(setup, s, t).state.progs| == |Go(setup, s, t).state.eq.pcs| > 0
    ensures Remaining(Go(setup, s, t).state) < Remaining(s)
  {
    OwnShape(setup, s, t);
    hide EQ.Inv, Sum, EQ.Dead, LedgerOk, ListOk, ShutOk, Go, ThOk, WorkerRank, EQ.Rank, CloserRank, Open;
    var s' := Go(setup, s, t).state;
    var pc', p' := s'.eq.pcs[t], s'.progs[t];
    SumUpdate(EQ.Rank, s.eq.pcs, t, pc');
    assert Threads(s') == Threads(s)[t := Th(pc', p')];
    SumUpdate(WorkerRank, Threads(s), t, Th(pc', p'));
  }

  /** Every step after Destroy leaves less to do. */
  lemma GoDecreases(setup: Setup, s: Pool, t: nat)
    requires Inv(setup, s) && setup.orderly && s.shut && t < |s.progs| && Go(setup, s, t).Moved?
    ensures var s' := Go(setup, s, t).state;
            Inv(setup, s') && s'.shut && 0 <= Remaining(s') < Remaining(s)
  {
    hide HeldAll, Live, EQ.Inv, Sum, EQ.Run, LedgerOk, ListOk, Remaining;
    GoKeepsInv(setup, s, t);
    RemainingNonNegative(setup, Go(setup, s, t).state);
    if EQ.InPut(s.eq.pcs[t]) || EQ.InGet(s.eq.pcs[t]) {
      QueueStepDecreases(setup, s, t);
    } else {
      OwnStepDecreases(setup, s, t);
    }
  }

  /** How many actions of a schedule are not held up. */
  function Moves(setup: Setup, s: Pool, schedule: seq<(nat, Action)>): nat
    requires |s.progs| == |s.eq.pcs|
    decreases |schedule|
  {
    if schedule == [] then 0
    else if schedule[0].0 >= |s.progs| then Moves(setup, s, schedule[1..])
    else match Act(setup, s, schedule[0].0, schedule[0].1)
         case Blocked => Moves(setup, s, schedule[1..])
         case Fault => 0
         case Moved(s') => 1 + if |s'.progs| == |s'.eq.pcs| then Moves(setup, s', schedule[1..]) else 0
  }

  /** After Destroy a run makes at most Remaining(s) moves, whatever the scheduler does. */
  lemma {:induction false} RunsAreFinite(setup: Setup, s: Pool, schedule: seq<(nat, Action)>)
    requires Inv(setup, s) && setup.orderly && s.shut
    ensures Moves(setup, s, schedule) <= Remaining(s)
    decreases |schedule|
  {
    hide ListOk, LedgerOk, EQ.Inv, Go, Remaining;
    RemainingNonNegative(setup, s);
    if schedule != [] {
      var (t, a) := schedule[0];
      if t < |s.progs| && Act(setup, s, t, a).Moved? {
        GoDecreases(setup, s, t);
        RunsAreFinite(setup, Act(setup, s, t, a).state, schedule[1..]);
      } else {
        RunsAreFinite(setup, s, schedule[1..]);
      }
    }
  }

  // ---------------------------------------------------------------- when no Exit is turned away

  /** The Put in progress looks at no node that was popped before Destroy began. */
  ghost predicate Fresh(s: Pool)
    requires 0 < |s.eq.pcs|
  {
    match s.eq.pcs[CLOSER]
    case PutPush(_, WErase(last)) => last.At? && s.poppedBefore <= last.id
    case PutPush(_, WCheck) => s.eq.q.nodes != [] && s.poppedBefore <= s.eq.q.nodes[0].id
    case _ => true
  }

  /** Queued events and workers at the time of Destroy fit the queue, and so far all Exits did. */
  ghost predicate Fits(setup: Setup, s: Pool)
  {
    && Inv(setup, s) && setup.orderly && s.shut && Fresh(s) && s.rejected == 0
    && s.addedBefore - s.poppedBefore + s.listSize <= s.eq.q.maxSize
  }

  lemma PushFresh(q: Lfq<Event>, w: WriterPC, e: Event, least: nat)
    requires QOk(q) && EQ.PcOk(q, e, EQ.PutPush(e, w)) && least <= q.head.id
    requires w.WErase? ==> w.last.At? && least <= w.last.id
    requires w.WCheck? ==> least <= q.nodes[0].id
    ensures WStep(q, w, e).Some?
    ensures var (q', w') := WStep(q, w, e).value;
            && (w'.WErase? ==> w'.last.At? && least <= w'.last.id)
            && (w'.WCheck? ==> q'.nodes != [] && least <= q'.nodes[0].id)
  {
    WriterStep(q, w, e, RBegin);
  }

  /** Only the closer is inside Put once Destroy has begun. */
  lemma OnlyCloserPuts(setup: Setup, s: Pool, t: nat)
    requires Inv(setup, s) && setup.orderly && s.shut && t < |s.progs| && t != CLOSER
    ensures !EQ.InPut(s.eq.pcs[t])
  {
    hide EQ.Inv, Sum, HeldAll, ListOk, LedgerOk;
    assert ThOk(Th(s.eq.pcs[t], s.progs[t]));
  }

  lemma RunFresh(s: Pool, t: nat)
    requires EQ.Inv(CFG, s.eq) && t < |s.eq.pcs| && Fresh(s) && s.poppedBefore <= |s.eq.popped|
    requires EQ.Run(CFG, s.eq, t).Moved? && (t != CLOSER ==> !EQ.InPut(s.eq.pcs[t]))
    requires |EQ.Run(CFG, s.eq, t).state.pcs| > 0
    ensures Fresh(s.(eq := EQ.Run(CFG, s.eq, t).state))
  {
    hide Sum, Live, EQ.Exclusive;
    assert EQ.PcOk(s.eq.q, s.eq.mEvent, s.eq.pcs[t]);
    if s.eq.pcs[t].GetPop? {
      ReaderStep(s.eq.q, s.eq.pcs[t].r, WBegin);
    } else if s.eq.pcs[t].PutPush? {
      PushFresh(s.eq.q, s.eq.pcs[t].w, s.eq.mEvent, s.poppedBefore);
    }
  }

  lemma GoFresh(setup: Setup, s: Pool, t: nat)
    requires Inv(setup, s) && setup.orderly && s.shut && Fresh(s) && t < |s.progs| && Go(setup, s, t).Moved?
    requires |Go(setup, s, t).state.eq.pcs| > 0
    ensures Fresh(Go(setup, s, t).state)
  {
    hide HeldAll, ListOk, LedgerOk, EQ.Inv, EQ.Run;
    assert ThOk(Th(s.eq.pcs[t], s.progs[t]));
    if t != CLOSER { OnlyCloserPuts(setup, s, t); }
    if EQ.InPut(s.eq.pcs[t]) || EQ.InGet(s.eq.pcs[t]) { RunFresh(s, t); }
  }

  lemma NodesCounted(setup: Setup, s: Pool)
    requires Inv(setup, s)
    ensures |s.eq.q.nodes| > 0 && |s.eq.q.nodes| == |s.eq.pushed| + 1 - s.eq.q.nodes[0].id
  {
    hide Sum, HeldAll, ListOk, LedgerOk, Live, EQ.Exclusive;
    LiveOk(s.eq.q);
    PushedSplit(setup, s);
  }

  lemma FitsNeverRejects(setup: Setup, s: Pool, t: nat)
    requires Fits(setup, s) && t < |s.progs|
    ensures EQ.EffectOf(s.eq, t) != EQ.Reject(Exit)
  {
    hide Sum, HeldAll, ListOk, LedgerOk, Live, EQ.Inv;
    if EQ.EffectOf(s.eq, t) == EQ.Reject(Exit) {
      if t != CLOSER { OnlyCloserPuts(setup, s, t); }
      NodesCounted(setup, s);
    }
  }

  lemma GoKeepsFits(setup: Setup, s: Pool, t: nat)
    requires Fits(setup, s) && t < |s.progs| && Go(setup, s, t).Moved?
    ensures Fits(setup, Go(setup, s, t).state)
  {
    hide Sum, HeldAll, ListOk, LedgerOk, Live, EQ.Inv, EQ.EffectOf;
    GoKeepsInv(setup, s, t);
    GoFresh(setup, s, t);
    FitsNeverRejects(setup, s, t);
    assert !InAddJob(s.progs[t]);
    EQ.RunKeepsSize(CFG, s.eq, t);
  }

  lemma {:induction false} PlayKeepsFits(setup: Setup, s: Pool, schedule: seq<(nat, Action)>)
    requires Fits(setup, s)
    ensures Play(setup, s, schedule).Some? && Fits(setup, Play(setup, s, schedule).value)
    decreases |schedule|
  {
    hide ListOk, LedgerOk, EQ.Inv, Go, Fresh;
    if schedule != [] {
      var (t, a) := schedule[0];
      if t < |s.progs| && Act(setup, s, t, a).Moved? {
        GoKeepsFits(setup, s, t);
        PlayKeepsFits(setup, Act(setup, s, t, a).state, schedule[1..]);
      } else {
        if t < |s.progs| { ActKeepsInv(setup, s, t, a); }
        PlayKeepsFits(setup, s, schedule[1..]);
      }
    }
  }

  // ---------------------------------------------------------------- runs that exist

  lemma {:induction false} PlayAppend(setup: Setup, s: Pool, a: seq<(nat, Action)>, b: seq<(nat, Action)>)
    requires Inv(setup, s)
    ensures Play(setup, s, a).Some? && Inv(setup, Play(setup, s, a).value)
    ensures Play(setup, s, a + b) == Play(setup, Play(setup, s, a).value, b)
    decreases |a|
  {
    hide ListOk, LedgerOk, ShutOk, EQ.Inv, Act;
    if a == [] {
      assert a + b == b;
    } else {
      assert (a + b)[1..] == a[1..] + b && (a + b)[0] == a[0];
      var (t, x) := a[0];
      if t < |s.progs| { ActKeepsInv(setup, s, t, x); }
      PlayAppend(setup, if t < |s.progs| && Act(setup, s, t, x).Moved? then Act(setup, s, t, x).state else s, a[1..], b);
    }
  }

  /** A step after Destroy leaves the thread list alone and forgets no rejection. */
  lemma GoKeepsList(setup: Setup, s: Pool, t: nat)
    requires Inv(setup, s) && setup.orderly && s.shut && t < |s.progs| && Go(setup, s, t).Moved?
    ensures s.rejected <= Go(setup, s, t).state.rejected && Go(setup, s, t).state.listSize == s.listSize
  {
    hide ListOk, LedgerOk, EQ.Inv, EQ.Run, EQ.EffectOf, ThOk;
    assert !InAddJob(s.progs[t]);
  }

  /** From any state after Destroy some run goes on until nothing moves, forgetting no rejection. */
  lemma {:induction false} RunOut(setup: Setup, s: Pool) returns (schedule: seq<(nat, Action)>)
    requires Inv(setup, s) && setup.orderly && s.shut
    ensures Play(setup, s, schedule).Some?
    ensures var f := Play(setup, s, schedule).value;
            Inv(setup, f) && f.shut && Stuck(setup, f) && s.rejected <= f.rejected && f.listSize == s.listSize
    decreases Remaining(s)
  {
    hide ListOk, LedgerOk, ShutOk, EQ.Inv, Remaining, Go;
    RemainingNonNegative(setup, s);
    if Stuck(setup, s) {
      schedule := [];
    } else {
      var t :| 0 <= t < |s.progs| && Go(setup, s, t).Moved?;
      GoDecreases(setup, s, t);
      GoKeepsList(setup, s, t);
      var rest := RunOut(setup, Go(setup, s, t).state);
      schedule := [(t, Step)] + rest;
      assert schedule[1..] == rest;
    }
  }

  /** The closer never has to wait: it can put all its Exit events while nobody else moves. */
  lemma CloserMoves(setup: Setup, s: Pool)
    requires Inv(setup, s) && setup.orderly && s.shut && s.progs[CLOSER].Closing?
    ensures Go(setup, s, CLOSER).Moved?
    ensures var s' := Go(setup, s, CLOSER).state;
            s'.eq.popped == s.eq.popped && s'.eq.q.maxSize == s.eq.q.maxSize && s'.addedBefore == s.addedBefore
            && s'.listSize == s.listSize && |s'.progs| == |s.progs| && (IsCloser(s'.progs[CLOSER]))
  {
    hide Sum, HeldAll, ListOk, LedgerOk, Live;
    assert ThOk(Th(s.eq.pcs[CLOSER], s.progs[CLOSER]));
    if EQ.InPut(s.eq.pcs[CLOSER]) {
      EQ.RunKeepsInv(CFG, s.eq, CLOSER);
      if s.eq.pcs[CLOSER].PutLock? && s.eq.writer.Some? && s.eq.writer.value != CLOSER {
        OnlyCloserPuts(setup, s, s.eq.writer.value);
      }
      assert EQ.Run(CFG, s.eq, CLOSER).Moved?;
      EQ.StepRefinesFifo(CFG, s.eq, CLOSER);
      EQ.RunKeepsSize(CFG, s.eq, CLOSER);
    }
  }

  lemma {:induction false} CloserAlone(setup: Setup, s: Pool) returns (schedule: seq<(nat, Action)>)
    requires Inv(setup, s) && setup.orderly && s.shut
    ensures Play(setup, s, schedule).Some?
    ensures var f := Play(setup, s, schedule).value;
            && Inv(setup, f) && f.shut && f.progs[CLOSER].Joining?
            && f.eq.popped == s.eq.popped && f.eq.q.maxSize == s.eq.q.maxSize
            && f.addedBefore == s.addedBefore && f.listSize == s.listSize
    decreases Remaining(s)
  {
    hide ListOk, LedgerOk, EQ.Inv, Remaining, Go;
    RemainingNonNegative(setup, s);
    if s.progs[CLOSER].Joining? {
      schedule := [];
    } else {
      CloserMoves(setup, s);
      GoDecreases(setup, s, CLOSER);
      var rest := CloserAlone(setup, Go(setup, s, CLOSER).state);
      schedule := [(CLOSER, Step)] + rest;
      assert schedule[1..] == rest;
    }
  }

  /** If the Exit events cannot all fit, the closer running alone sees one turned away. */
  lemma TooManyExits(setup: Setup, s: Pool) returns (schedule: seq<(nat, Action)>)
    requires Inv(setup, s) && setup.orderly && s.shut && |s.eq.popped| == s.poppedBefore
    requires s.addedBefore - s.poppedBefore + s.listSize > s.eq.q.maxSize
    ensures Play(setup, s, schedule).Some?
    ensures var f := Play(setup, s, schedule).value; Inv(setup, f) && f.shut && f.listSize == s.listSize && 0 < f.rejected
  {
    hide ListOk, LedgerOk, EQ.Exclusive, Go, Live, Sum;
    schedule := CloserAlone(setup, s);
    var f := Play(setup, s, schedule).value;
    PushedSplit(setup, f);
    LiveOk(f.eq.q);
    assert |Live(f.eq.q)| <= f.eq.q.maxSize;
  }

  /** No run from s ends with a worker that has not returned. */
  ghost predicate NeverHangs(setup: Setup, s: Pool)
    requires |s.progs| == |s.eq.pcs|
  {
    forall schedule: seq<(nat, Action)> ::
      Play(setup, s, schedule).Some? ==>
        var f := Play(setup, s, schedule).value;
        |f.progs| == |f.eq.pcs| && (Stuck(setup, f) ==> AllReturned(f))
  }

  /**
   * Destroy of a pool with at least one worker always gets all workers to return, whatever the
   * scheduler does, if and only if the events queued when it is called and the workers together
   * fit the queue. (Otherwise an Exit can be turned away, and Destroy waits for ever.)
   */
  lemma DestroyNeverHangsIff(setup: Setup, s: Pool)
    requires Inv(setup, s) && setup.orderly && 0 < s.listSize && !s.shut && forall t :: 0 <= t < |s.progs| ==> !InAddJob(s.progs[t])
    ensures Act(setup, s, CLOSER, Destroy).Moved?
    ensures NeverHangs(setup, Act(setup, s, CLOSER, Destroy).state)
            <==> |Live(s.eq.q)| + s.listSize <= s.eq.q.maxSize
  {
    hide ListOk, LedgerOk, EQ.Inv, Go, Live, Sum;
    ActKeepsInv(setup, s, CLOSER, Destroy);
    PushedSplit(setup, s);
    var d := Act(setup, s, CLOSER, Destroy).state;
    assert ThOk(Th(s.eq.pcs[CLOSER], s.progs[CLOSER]));
    if |Live(s.eq.q)| + s.listSize <= s.eq.q.maxSize {
      forall schedule | Play(setup, d, schedule).Some?
        ensures var f := Play(setup, d, schedule).value;
                |f.progs| == |f.eq.pcs| && (Stuck(setup, f) ==> AllReturned(f))
      {
        PlayKeepsFits(setup, d, schedule);
        var f := Play(setup, d, schedule).value;
        PlayKeepsList(setup, d, schedule);
        if Stuck(setup, f) { StuckOutcome(setup, f); }
      }
    } else {
      var first := TooManyExits(setup, d);
      var m := Play(setup, d, first).value;
      var rest := RunOut(setup, m);
      PlayAppend(setup, d, first, rest);
      var f := Play(setup, d, first + rest).value;
      StuckOutcome(setup, f);
      assert !AllReturned(f);
    }
  }

  /** After Destroy the thread list stays as it is. */
  lemma {:induction false} PlayKeepsList(setup: Setup, s: Pool, schedule: seq<(nat, Action)>)
    requires Inv(setup, s) && setup.orderly && s.shut
    ensures Play(setup, s, schedule).Some? && Play(setup, s, schedule).value.listSize == s.listSize
    decreases |schedule|
  {
    hide ListOk, LedgerOk, ShutOk, EQ.Inv, Go;
    if schedule != [] {
      var (t, a) := schedule[0];
      if t < |s.progs| {
        ActKeepsInv(setup, s, t, a);
        if Act(setup, s, t, a).Moved? {
          GoDecreases(setup, s, t);
          GoKeepsList(setup, s, t);
          PlayKeepsList(setup, Act(setup, s, t, a).state, schedule[1..]);
        } else {
          PlayKeepsList(setup, s, schedule[1..]);
        }
      } else {
        PlayKeepsList(setup, s, schedule[1..]);
      }
    }
  }
}
