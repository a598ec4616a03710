/**
 * XLSemaPhore in its C++11 form: a count guarded by a mutex, and a condition variable. Waking up
 * may be spurious, notify_one picks any sleeper, and a thread that comes along may take a permit
 * before a thread that was woken for it.
 */
module SemaPhore {
  import opened Basics

  /** `woken` tells (history) that the thread got here because notify_one picked it. */
  datatype PC =
    | Idle
    | TakeLock | TakeCheck(woken: bool) | Asleep | Notified | Spurious | TakeCount(woken: bool) | TakeUnlock
    | GiveLock | GiveCount | GiveNotify | GiveUnlock

  /** mSemCount, mMaxCount, the owner of m_Mut; `initial`, `taken` and `given` are history. */
  datatype State = State(semCount: int, maxCount: int, mutex: Option<nat>, pcs: seq<PC>, initial: int, taken: nat, given: nat)

  function Permits(s: State): int
  {
    s.maxCount - s.semCount
  }

  function Create(count: int, threads: nat): State
  {
    State(0, count, None, seq(threads, _ => Idle), count, 0, 0)
  }

  function CreateWithMax(count: int, maxCount: int, threads: nat): State
  {
    State(count, maxCount, None, seq(threads, _ => Idle), maxCount - count, 0, 0)
  }

  predicate HasMutex(pc: PC)
  {
    pc.TakeCheck? || pc.TakeCount? || pc.TakeUnlock? || pc.GiveCount? || pc.GiveNotify? || pc.GiveUnlock?
  }

  function At(s: State, t: nat, pc: PC): State
    requires t < |s.pcs|
  {
    s.(pcs := s.pcs[t := pc])
  }

  /** The next step of thread t; `pick` is the thread notify_one would pick, if it sleeps. */
  function Run(s: State, t: nat, pick: nat): Outcome<State>
    requires t < |s.pcs|
  {
    match s.pcs[t]
    case Idle => Blocked
    case TakeLock => if s.mutex.Some? then Blocked else Moved(At(s, t, TakeCheck(false)).(mutex := Some(t)))
    case TakeCheck(woken) =>
      if s.semCount >= s.maxCount then Moved(At(s, t, Asleep).(mutex := None)) else Moved(At(s, t, TakeCount(woken)))
    case Asleep => Blocked
    case Notified => if s.mutex.Some? then Blocked else Moved(At(s, t, TakeCheck(true)).(mutex := Some(t)))
    case Spurious => if s.mutex.Some? then Blocked else Moved(At(s, t, TakeCheck(false)).(mutex := Some(t)))
    case TakeCount(_) => Moved(At(s, t, TakeUnlock).(semCount := s.semCount + 1, taken := s.taken + 1))
    case TakeUnlock => Moved(At(s, t, Idle).(mutex := None))
    case GiveLock => if s.mutex.Some? then Blocked else Moved(At(s, t, GiveCount).(mutex := Some(t)))
    case GiveCount => Moved(At(s, t, GiveNotify).(semCount := s.semCount - 1, given := s.given + 1))
    case GiveNotify =>
      if pick < |s.pcs| && s.pcs[pick].Asleep? then Moved(At(At(s, t, GiveUnlock), pick, Notified))
      else if exists u :: 0 <= u < |s.pcs| && s.pcs[u].Asleep? then Blocked
      else Moved(At(s, t, GiveUnlock))
    case GiveUnlock => Moved(At(s, t, Idle).(mutex := None))
  }

  datatype Action = CallTake | CallGive | WakeUp | Go(pick: nat)

  function Act(s: State, t: nat, a: Action): Outcome<State>
    requires t < |s.pcs|
  {
    match a
    case CallTake => if s.pcs[t].Idle? then Moved(At(s, t, TakeLock)) else Blocked
    case CallGive => if s.pcs[t].Idle? then Moved(At(s, t, GiveLock)) else Blocked
    case WakeUp => if s.pcs[t].Asleep? then Moved(At(s, t, Spurious)) else Blocked
    case Go(pick) => Run(s, t, pick)
  }

  function Play(s: State, schedule: seq<(nat, Action)>): State
    decreases |schedule|
  {
    if schedule == [] then s
    else if schedule[0].0 < |s.pcs| && Act(s, schedule[0].0, schedule[0].1).Moved? then
      Play(Act(s, schedule[0].0, schedule[0].1).state, schedule[1..])
    else Play(s, schedule[1..])
  }

  // ---------------------------------------------------------------- invariant

  /** 1 for a waiter that was notified and has neither taken its permit nor gone back to sleep. */
  function NotYetResumed(pc: PC): int
  {
    if pc.Notified? || (pc.TakeCheck? && pc.woken) || (pc.TakeCount? && pc.woken) then 1 else 0
  }

  /** 1 for a giver that has counted its permit and is about to notify. */
  function AboutToNotify(pc: PC): int
  {
    if pc.GiveNotify? then 1 else 0
  }

  predicate SomeAsleep(s: State)
  {
    exists t :: 0 <= t < |s.pcs| && s.pcs[t].Asleep?
  }

  ghost predicate MutexOk(s: State)
  {
    && (forall t :: 0 <= t < |s.pcs| && HasMutex(s.pcs[t]) ==> s.mutex == Some(t))
    && (s.mutex.Some? ==> s.mutex.value < |s.pcs| && HasMutex(s.pcs[s.mutex.value]))
    && (forall t :: 0 <= t < |s.pcs| && s.pcs[t].TakeCount? ==> s.semCount < s.maxCount)
  }

  /** While some waiter sleeps un-notified, every free permit has a woken waiter on its way to it. */
  ghost predicate NoLostWakeup(s: State)
  {
    SomeAsleep(s) ==> Permits(s) <= Sum(NotYetResumed, s.pcs) + Sum(AboutToNotify, s.pcs)
  }

  ghost predicate Counted(s: State)
  {
    && Permits(s) == s.initial + s.given - s.taken
    && (0 <= Permits(s) || s.initial <= Permits(s))
  }

  ghost predicate Inv(s: State)
  {
    MutexOk(s) && NoLostWakeup(s) && Counted(s)
  }

  lemma SumsOk(s: State)
    ensures 0 <= Sum(NotYetResumed, s.pcs) && 0 <= Sum(AboutToNotify, s.pcs)
    ensures forall t :: 0 <= t < |s.pcs| ==> NotYetResumed(s.pcs[t]) <= Sum(NotYetResumed, s.pcs)
  {
    SumBounds(NotYetResumed, s.pcs);
    SumBounds(AboutToNotify, s.pcs);
  }

  /** A step of one thread that picks nobody. */
  lemma OneMoves(s: State, s': State, t: nat, pc': PC)
    requires NoLostWakeup(s) && t < |s.pcs| && s'.pcs == s.pcs[t := pc']
    requires (pc'.Asleep? && !s.pcs[t].Asleep?) ==> Permits(s') <= 0
    requires s.pcs[t].GiveNotify? ==> !SomeAsleep(s)
    requires !pc'.Asleep? && !s.pcs[t].GiveNotify? ==>
               Permits(s') - Permits(s) <= NotYetResumed(pc') + AboutToNotify(pc') - NotYetResumed(s.pcs[t]) - AboutToNotify(s.pcs[t])
    requires s.pcs[t].Asleep? && pc'.Asleep? ==> Permits(s') <= Permits(s)
    requires s.pcs[t].GiveNotify? ==> !pc'.Asleep?
    ensures NoLostWakeup(s')
  {
    SumUpdate(NotYetResumed, s.pcs, t, pc');
    SumUpdate(AboutToNotify, s.pcs, t, pc');
    SumsOk(s');
    if SomeAsleep(s') && !(pc'.Asleep? && !s.pcs[t].Asleep?) {
      var u :| 0 <= u < |s'.pcs| && s'.pcs[u].Asleep?;
      assert s.pcs[u].Asleep?;
    }
  }

  lemma NotifyMoves(s: State, t: nat, pick: nat)
    requires NoLostWakeup(s) && t < |s.pcs| && s.pcs[t].GiveNotify? && pick < |s.pcs| && s.pcs[pick].Asleep?
    ensures NoLostWakeup(At(At(s, t, GiveUnlock), pick, Notified))
  {
    var s1 := At(s, t, GiveUnlock);
    SumUpdate(NotYetResumed, s.pcs, t, GiveUnlock);
    SumUpdate(AboutToNotify, s.pcs, t, GiveUnlock);
    SumUpdate(NotYetResumed, s1.pcs, pick, Notified);
    SumUpdate(AboutToNotify, s1.pcs, pick, Notified);
  }

  lemma MutexKept(s: State, t: nat, a: Action)
    requires MutexOk(s) && t < |s.pcs| && Act(s, t, a).Moved?
    ensures MutexOk(Act(s, t, a).state)
  {
  }

  lemma ActKeepsInv(s: State, t: nat, a: Action)
    requires Inv(s) && t < |s.pcs| && Act(s, t, a).Moved?
    ensures Inv(Act(s, t, a).state) && Act(s, t, a).state.initial == s.initial
  {
    MutexKept(s, t, a);
    assert s.pcs[t].TakeCount? ==> s.semCount < s.maxCount;
    hide Sum, MutexOk, NoLostWakeup, HasMutex;
    var s' := Act(s, t, a).state;
    if a.Go? && s.pcs[t].GiveNotify? && a.pick < |s.pcs| && s.pcs[a.pick].Asleep? {
      NotifyMoves(s, t, a.pick);
    } else {
      OneMoves(s, s', t, s'.pcs[t]);
    }
  }

  lemma {:induction false} PlayKeepsInv(s: State, schedule: seq<(nat, Action)>)
    requires Inv(s)
    ensures Inv(Play(s, schedule)) && Play(s, schedule).initial == s.initial
    decreases |schedule|
  {
    hide Inv, Act;
    if schedule != [] {
      var (t, a) := schedule[0];
      if t < |s.pcs| && Act(s, t, a).Moved? {
        ActKeepsInv(s, t, a);
        PlayKeepsInv(Act(s, t, a).state, schedule[1..]);
      } else {
        PlayKeepsInv(s, schedule[1..]);
      }
    }
  }

  // ---------------------------------------------------------------- results

  /**
   * For any number of threads, any scheduling, spurious wakeups and barging: the free permits
   * are the initial ones plus the Gives minus the Takes, are not negative if they were not at the
   * start, and no wakeup is lost. `created` covers both forms of Create.
   */
  lemma NoWakeupIsLost(count: int, maxCount: int, withMax: bool, threads: nat, schedule: seq<(nat, Action)>)
    ensures var created := if withMax then CreateWithMax(count, maxCount, threads) else Create(count, threads);
            var s := Play(created, schedule);
            && NoLostWakeup(s) && MutexOk(s)
            && Permits(s) == (if withMax then maxCount - count else count) + s.given - s.taken
            && ((if withMax then maxCount - count else count) >= 0 ==> Permits(s) >= 0)
  {
    PlayKeepsInv(if withMax then CreateWithMax(count, maxCount, threads) else Create(count, threads), schedule);
  }

  /**
   * Nobody sleeps beside a free permit: where no thread can move of itself (spurious wakeups and
   * new calls apart), a thread is still inside Take only if no permit is free.
   */
  lemma SleepersHaveNoPermit(s: State)
    requires Inv(s)
    requires forall t, pick :: 0 <= t < |s.pcs| && 0 <= pick ==> !Run(s, t, pick).Moved?
    ensures forall t :: 0 <= t < |s.pcs| ==> s.pcs[t].Idle? || s.pcs[t].Asleep?
    ensures SomeAsleep(s) ==> Permits(s) <= 0
  {
    forall t | 0 <= t < |s.pcs| ensures s.pcs[t].Idle? || s.pcs[t].Asleep? {
      OnlySleepersStay(s, t);
    }
    SumZero(NotYetResumed, s.pcs);
    SumZero(AboutToNotify, s.pcs);
  }

  lemma HolderMoves(s: State, t: nat)
    requires t < |s.pcs| && HasMutex(s.pcs[t])
    ensures exists pick: nat :: Run(s, t, pick).Moved?
  {
    var pick: nat := if u :| 0 <= u < |s.pcs| && s.pcs[u].Asleep? then u else 0;
    assert Run(s, t, pick).Moved?;
  }

  lemma OnlySleepersStay(s: State, t: nat)
    requires Inv(s) && t < |s.pcs|
    requires forall u, pick :: 0 <= u < |s.pcs| && 0 <= pick ==> !Run(s, u, pick).Moved?
    ensures s.pcs[t].Idle? || s.pcs[t].Asleep?
  {
    if s.mutex.Some? { HolderMoves(s, s.mutex.value); }
    if HasMutex(s.pcs[t]) { HolderMoves(s, t); }
    assert !Run(s, t, 0).Moved?;
  }

  /**
   * A call that nobody disturbs: Take removes a permit and returns, or goes to sleep for lack of
   * one; Give adds one and returns.
   */
  lemma CallsAlone(s: State, t: nat)
    requires Inv(s) && t < |s.pcs| && forall u :: 0 <= u < |s.pcs| ==> s.pcs[u].Idle?
    ensures 0 < Permits(s) ==>
              Play(s, [(t, CallTake), (t, Go(0)), (t, Go(0)), (t, Go(0)), (t, Go(0))])
              == s.(semCount := s.semCount + 1, taken := s.taken + 1)
    ensures Permits(s) <= 0 ==> Play(s, [(t, CallTake), (t, Go(0)), (t, Go(0))]) == At(s, t, Asleep)
    ensures Play(s, [(t, CallGive), (t, Go(0)), (t, Go(0)), (t, Go(0)), (t, Go(0))])
            == s.(semCount := s.semCount - 1, given := s.given + 1)
  {
    hide NoLostWakeup, Counted, Sum, Act, Play;
    assert s.mutex == None;
    TakeAlone(s, t);
    GiveAlone(s, t);
  }

  lemma GiveAlone(s: State, t: nat)
    requires t < |s.pcs| && s.mutex == None && forall u :: 0 <= u < |s.pcs| ==> s.pcs[u].Idle?
    ensures Play(s, [(t, CallGive), (t, Go(0)), (t, Go(0)), (t, Go(0)), (t, Go(0))])
            == s.(semCount := s.semCount - 1, given := s.given + 1)
  {
    hide Play;
    var s1 := At(s, t, GiveLock);
    var s2 := At(s1, t, GiveCount).(mutex := Some(t));
    var s3 := At(s2, t, GiveNotify).(semCount := s.semCount - 1, given := s.given + 1);
    var s4 := At(s3, t, GiveUnlock);
    var s5 := At(s4, t, Idle).(mutex := None);
    Five(s, t, CallGive, s1, s2, s3, s4, s5);
    assert s5.pcs == s.pcs;
  }

  /** A call of five steps. */
  lemma Five(s: State, t: nat, a: Action, s1: State, s2: State, s3: State, s4: State, s5: State)
    requires t < |s.pcs| == |s1.pcs| == |s2.pcs| == |s3.pcs| == |s4.pcs| && Act(s, t, a) == Moved(s1)
    requires Act(s1, t, Go(0)) == Moved(s2) && Act(s2, t, Go(0)) == Moved(s3)
    requires Act(s3, t, Go(0)) == Moved(s4) && Act(s4, t, Go(0)) == Moved(s5)
    ensures Play(s, [(t, a), (t, Go(0)), (t, Go(0)), (t, Go(0)), (t, Go(0))]) == s5
  {
    hide Act;
    var g := (t, Go(0));
    Goes(s4, t, Go(0), s5, []);
    Goes(s3, t, Go(0), s4, [g]);
    Goes(s2, t, Go(0), s3, [g, g]);
    Goes(s1, t, Go(0), s2, [g, g, g]);
    Goes(s, t, a, s1, [g, g, g, g]);
    assert [(t, a)] + [g, g, g, g] == [(t, a), g, g, g, g];
  }

  lemma Three(s: State, t: nat, s1: State, s2: State, s3: State)
    requires t < |s.pcs| == |s1.pcs| == |s2.pcs| && Act(s, t, CallTake) == Moved(s1)
    requires Act(s1, t, Go(0)) == Moved(s2) && Act(s2, t, Go(0)) == Moved(s3)
    ensures Play(s, [(t, CallTake), (t, Go(0)), (t, Go(0))]) == s3
  {
    hide Act;
    var g := (t, Go(0));
    Goes(s2, t, Go(0), s3, []);
    Goes(s1, t, Go(0), s2, [g]);
    Goes(s, t, CallTake, s1, [g, g]);
    assert [(t, CallTake)] + [g, g] == [(t, CallTake), g, g];
  }

  lemma TakeAlone(s: State, t: nat)
    requires t < |s.pcs| && s.mutex == None && s.pcs[t].Idle?
    ensures 0 < Permits(s) ==>
              Play(s, [(t, CallTake), (t, Go(0)), (t, Go(0)), (t, Go(0)), (t, Go(0))])
              == s.(semCount := s.semCount + 1, taken := s.taken + 1)
    ensures Permits(s) <= 0 ==> Play(s, [(t, CallTake), (t, Go(0)), (t, Go(0))]) == At(s, t, Asleep)
  {
    hide Play;
    var s1 := At(s, t, TakeLock);
    var s2 := At(s1, t, TakeCheck(false)).(mutex := Some(t));
    if 0 < Permits(s) {
      var s3 := At(s2, t, TakeCount(false));
      var s4 := At(s3, t, TakeUnlock).(semCount := s.semCount + 1, taken := s.taken + 1);
      var s5 := At(s4, t, Idle).(mutex := None);
      Five(s, t, CallTake, s1, s2, s3, s4, s5);
      assert s5.pcs == s.pcs;
    } else {
      var s3 := At(s2, t, Asleep).(mutex := None);
      Three(s, t, s1, s2, s3);
      assert s3.pcs == At(s, t, Asleep).pcs;
    }
  }

  lemma Goes(s: State, t: nat, a: Action, s': State, rest: seq<(nat, Action)>)
    requires t < |s.pcs| && Act(s, t, a) == Moved(s')
    ensures Play(s, [(t, a)] + rest) == Play(s', rest)
  {
    hide Act;
    assert ([(t, a)] + rest)[1..] == rest;
  }

  // ---------------------------------------------------------------- the atomic counter behind it

  /** A call seen from outside: begun, counted, over. */
  datatype Phase = Out | Taking | Taken | Giving | Given

  datatype Atomic = Atomic(permits: int, phases: seq<Phase>)

  datatype AtomicAction = BeginTake | BeginGive | Count | End

  /** One indivisible step; None where it is not possible. Take counts only a permit that is free. */
  function AtomicStep(c: Atomic, t: nat, a: AtomicAction): Option<Atomic>
  {
    if t >= |c.phases| then None
    else
      match (a, c.phases[t])
      case (BeginTake, Out) => Some(c.(phases := c.phases[t := Taking]))
      case (BeginGive, Out) => Some(c.(phases := c.phases[t := Giving]))
      case (Count, Taking) => if c.permits > 0 then Some(Atomic(c.permits - 1, c.phases[t := Taken])) else None
      case (Count, Giving) => Some(Atomic(c.permits + 1, c.phases[t := Given]))
      case (End, Taken) => Some(c.(phases := c.phases[t := Out]))
      case (End, Given) => Some(c.(phases := c.phases[t := Out]))
      case _ => None
  }

  function AtomicRun(c: Atomic, run: seq<(nat, AtomicAction)>): Option<Atomic>
    decreases |run|
  {
    if run == [] then Some(c)
    else match AtomicStep(c, run[0].0, run[0].1) case None => None case Some(c') => AtomicRun(c', run[1..])
  }

  function PhaseOf(pc: PC): Phase
  {
    match pc
    case Idle => Out
    case TakeUnlock => Taken
    case GiveLock => Giving
    case GiveCount => Giving
    case GiveNotify => Given
    case GiveUnlock => Given
    case _ => Taking
  }

  function AtomicOf(s: State): Atomic
  {
    Atomic(Permits(s), seq(|s.pcs|, i requires 0 <= i < |s.pcs| => PhaseOf(s.pcs[i])))
  }

  /** What of a step is seen from outside: nothing, or one atomic step of the same thread. */
  function Visible(pc: PC, a: Action): seq<AtomicAction>
  {
    match a
    case CallTake => [BeginTake]
    case CallGive => [BeginGive]
    case WakeUp => []
    case Go(_) => if pc.TakeCount? || pc.GiveCount? then [Count] else if pc.TakeUnlock? || pc.GiveUnlock? then [End] else []
  }

  function Seen(s: State, schedule: seq<(nat, Action)>): seq<(nat, AtomicAction)>
    decreases |schedule|
  {
    if schedule == [] then []
    else
      var (t, a) := schedule[0];
      if t < |s.pcs| && Act(s, t, a).Moved? then
        (if Visible(s.pcs[t], a) == [] then [] else [(t, Visible(s.pcs[t], a)[0])]) + Seen(Act(s, t, a).state, schedule[1..])
      else Seen(s, schedule[1..])
  }

  lemma StepIsAtomic(s: State, t: nat, a: Action)
    requires Inv(s) && t < |s.pcs| && Act(s, t, a).Moved?
    ensures var v := Visible(s.pcs[t], a);
            if v == [] then AtomicOf(Act(s, t, a).state) == AtomicOf(s)
            else AtomicStep(AtomicOf(s), t, v[0]) == Some(AtomicOf(Act(s, t, a).state))
  {
    hide NoLostWakeup, Sum;
    var c, c' := AtomicOf(s), AtomicOf(Act(s, t, a).state);
    assert c'.phases == c.phases[t := c'.phases[t]];
  }

  lemma {:induction false} RunIsAtomic(s: State, schedule: seq<(nat, Action)>)
    requires Inv(s)
    ensures AtomicRun(AtomicOf(s), Seen(s, schedule)) == Some(AtomicOf(Play(s, schedule)))
    decreases |schedule|
  {
    hide Inv, Act, AtomicOf, AtomicStep, Visible;
    if schedule != [] {
      var (t, a) := schedule[0];
      if t < |s.pcs| && Act(s, t, a).Moved? {
        var s' := Act(s, t, a).state;
        StepIsAtomic(s, t, a);
        ActKeepsInv(s, t, a);
        RunIsAtomic(s', schedule[1..]);
        var rest := Seen(s', schedule[1..]);
        if Visible(s.pcs[t], a) != [] {
          var first := (t, Visible(s.pcs[t], a)[0]);
          assert ([first] + rest)[1..] == rest;
        } else {
          assert [] + rest == rest;
        }
      } else {
        RunIsAtomic(s, schedule[1..]);
      }
    }
  }

  /**
   * Every run of the semaphore, seen from outside, is a run of an atomic counter: each call is
   * begun, counted in one indivisible step, and over; the step of a Take removes a permit that is
   * free at that moment, the step of a Give adds one.
   */
  lemma RefinesAtomicCounter(count: int, maxCount: int, withMax: bool, threads: nat, schedule: seq<(nat, Action)>)
    ensures var created := if withMax then CreateWithMax(count, maxCount, threads) else Create(count, threads);
            && AtomicOf(created) == Atomic(if withMax then maxCount - count else count, seq(threads, _ => Out))
            && AtomicRun(AtomicOf(created), Seen(created, schedule)) == Some(AtomicOf(Play(created, schedule)))
  {
    var created := if withMax then CreateWithMax(count, maxCount, threads) else Create(count, threads);
    assert AtomicOf(created).phases == seq(threads, _ => Out);
    RunIsAtomic(created, schedule);
  }
}
