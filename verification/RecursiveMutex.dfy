/**
 * XLMutex without C++11: a recursive mutex made of a semaphore with one permit, an owner id that
 * is read without any protection, and a plain counter. Reading and writing the counter are
 * separate steps.
 */
module RecursiveMutex {
  import opened Basics

  datatype PC =
    | Out
    // Lock
    | LockRead | Again | AgainWrite(seen: int) | LockTake | SetOwner | SetCount
    // Unlock
    | UnlockRead | Drop | DropWrite(seen: int) | DropTest | ClearOwner | GivePermit

  /** mThreadId, mCount, the semaphore's permits; `depth` (history) counts, for every thread, the
      Locks it has got minus the Unlocks that were counted. */
  datatype State = State(threadId: Option<nat>, count: int, permits: int, pcs: seq<PC>, depth: seq<int>)

  function Create(threads: nat): State
  {
    State(None, 0, 1, seq(threads, _ => Out), seq(threads, _ => 0))
  }

  function At(s: State, t: nat, pc: PC): State
    requires t < |s.pcs|
  {
    s.(pcs := s.pcs[t := pc])
  }

  function Deeper(s: State, t: nat, levels: int): State
    requires t < |s.depth|
  {
    s.(depth := s.depth[t := s.depth[t] + levels])
  }

  /** The next step of thread t. */
  function Run(s: State, t: nat): Outcome<State>
    requires t < |s.pcs| == |s.depth|
  {
    match s.pcs[t]
    case Out => Blocked
    case LockRead => Moved(At(s, t, if s.threadId == Some(t) then Again else LockTake))
    case Again => Moved(At(s, t, AgainWrite(s.count)))
    case AgainWrite(seen) => Moved(Deeper(At(s, t, Out), t, 1).(count := seen + 1))
    case LockTake => if s.permits <= 0 then Blocked else Moved(At(s, t, SetOwner).(permits := s.permits - 1))
    case SetOwner => Moved(At(s, t, SetCount).(threadId := Some(t)))
    case SetCount => Moved(Deeper(At(s, t, Out), t, 1).(count := 1))
    case UnlockRead => Moved(At(s, t, if s.threadId != Some(t) then Out else Drop))
    case Drop => Moved(At(s, t, DropWrite(s.count)))
    case DropWrite(seen) => Moved(Deeper(At(s, t, DropTest), t, -1).(count := seen - 1))
    case DropTest => Moved(At(s, t, if s.count > 0 then Out else ClearOwner))
    case ClearOwner => Moved(At(s, t, GivePermit).(threadId := None))
    case GivePermit => Moved(At(s, t, Out).(permits := s.permits + 1))
  }

  datatype Action = CallLock | CallUnlock | Go

  /** Any thread may call Lock or Unlock at any time between calls, owner or not. */
  function Act(s: State, t: nat, a: Action): Outcome<State>
    requires t < |s.pcs| == |s.depth|
  {
    match a
    case CallLock => if s.pcs[t].Out? then Moved(At(s, t, LockRead)) else Blocked
    case CallUnlock => if s.pcs[t].Out? then Moved(At(s, t, UnlockRead)) else Blocked
    case Go => Run(s, t)
  }

  function Play(s: State, schedule: seq<(nat, Action)>): State
    requires |s.pcs| == |s.depth|
    decreases |schedule|
  {
    if schedule == [] then s
    else if schedule[0].0 < |s.pcs| && Act(s, schedule[0].0, schedule[0].1).Moved? then
      Play(Act(s, schedule[0].0, schedule[0].1).state, schedule[1..])
    else Play(s, schedule[1..])
  }

  // ---------------------------------------------------------------- invariant

  /** A thread with its place in the code and its depth. */
  datatype Th = Th(pc: PC, depth: int)

  function Threads(s: State): seq<Th>
    requires |s.pcs| == |s.depth|
  {
    seq(|s.pcs|, i requires 0 <= i < |s.pcs| => Th(s.pcs[i], s.depth[i]))
  }

  /** The thread has the permit: it is inside, on its way in past Take, or out before Give. */
  predicate HasPermit(th: Th)
  {
    th.depth > 0 || th.pc.SetOwner? || th.pc.SetCount? || th.pc.DropTest? || th.pc.ClearOwner? || th.pc.GivePermit?
  }

  function PermitUnit(th: Th): int
  {
    if HasPermit(th) then 1 else 0
  }

  /** mThreadId names the thread. */
  predicate Registered(th: Th)
  {
    HasPermit(th) && !th.pc.SetOwner? && !th.pc.GivePermit?
  }

  ghost predicate ThOk(s: State, th: Th)
  {
    && 0 <= th.depth
    && (Registered(th) && !th.pc.SetCount? ==> s.count == th.depth)
    && match th.pc
       case Again => 0 < th.depth
       case AgainWrite(seen) => 0 < th.depth && seen == s.count
       case LockTake => th.depth == 0
       case SetOwner => th.depth == 0
       case SetCount => th.depth == 0
       case Drop => 0 < th.depth
       case DropWrite(seen) => 0 < th.depth && seen == s.count
       case ClearOwner => th.depth == 0
       case GivePermit => th.depth == 0
       case _ => true
  }

  ghost predicate Inv(s: State)
  {
    && |s.pcs| == |s.depth|
    && s.permits >= 0
    && s.permits + Sum(PermitUnit, Threads(s)) == 1
    && (forall t :: 0 <= t < |s.pcs| ==> ThOk(s, Threads(s)[t]))
    && (forall t :: 0 <= t < |s.pcs| ==> (s.threadId == Some(t) <==> Registered(Threads(s)[t])))
    && (s.threadId.Some? ==> s.threadId.value < |s.pcs|)
  }

  lemma {:induction false} TwoUnits(ths: seq<Th>, t: nat, u: nat)
    requires t < u < |ths| && HasPermit(ths[t]) && HasPermit(ths[u])
    ensures Sum(PermitUnit, ths) >= 2
  {
    if t == 0 {
      SumBounds(PermitUnit, ths[1..]);
      assert ths[1..][u - 1] == ths[u];
    } else {
      TwoUnits(ths[1..], t - 1, u - 1);
    }
  }

  /** Only one thread has the permit. */
  lemma PermitAlone(s: State, t: nat, u: nat)
    requires Inv(s) && t < |s.pcs| && u < |s.pcs| && HasPermit(Threads(s)[t]) && HasPermit(Threads(s)[u])
    ensures t == u
  {
    if t < u { TwoUnits(Threads(s), t, u); }
    if u < t { TwoUnits(Threads(s), u, t); }
  }

  /** What the acting thread does to the shared fields, as its own and the permit's books see it. */
  lemma ActorOk(s: State, t: nat, a: Action)
    requires Inv(s) && t < |s.pcs| && Act(s, t, a).Moved?
    ensures var s' := Act(s, t, a).state;
            && |s'.pcs| == |s'.depth| == |s.pcs| && s'.permits >= 0
            && var th, th' := Threads(s)[t], Th(s'.pcs[t], s'.depth[t]);
            && Threads(s') == Threads(s)[t := th'] && ThOk(s', th')
            && s'.permits - s.permits == PermitUnit(th) - PermitUnit(th')
            && (Registered(th') <==> s'.threadId == Some(t))
            && (s'.threadId == s.threadId || s'.threadId == Some(t) || (s'.threadId == None && HasPermit(th)))
            && (s'.count != s.count || s'.threadId != s.threadId ==> HasPermit(th))
  {
    hide Sum;
    assert ThOk(s, Threads(s)[t]);
  }

  lemma ActKeepsInv(s: State, t: nat, a: Action)
    requires Inv(s) && t < |s.pcs| && Act(s, t, a).Moved?
    ensures Inv(Act(s, t, a).state) && |Act(s, t, a).state.pcs| == |s.pcs|
  {
    ActorOk(s, t, a);
    hide Sum, Act;
    var s' := Act(s, t, a).state;
    var th, th' := Threads(s)[t], Th(s'.pcs[t], s'.depth[t]);
    SumUpdate(PermitUnit, Threads(s), t, th');
    forall u | 0 <= u < |s.pcs| && u != t
      ensures ThOk(s', Threads(s')[u]) && (s'.threadId == Some(u) <==> Registered(Threads(s')[u]))
    {
      assert ThOk(s, Threads(s)[u]) && Threads(s')[u] == Threads(s)[u];
      if HasPermit(th) && HasPermit(Threads(s)[u]) { PermitAlone(s, t, u); }
    }
  }

  lemma {:induction false} PlayKeepsInv(s: State, schedule: seq<(nat, Action)>)
    requires Inv(s)
    ensures Inv(Play(s, schedule)) && |Play(s, schedule).pcs| == |s.pcs|
    decreases |schedule|
  {
    hide Sum, Run, ThOk;
    if schedule != [] {
      var (t, a) := schedule[0];
      if t < |s.pcs| && Act(s, t, a).Moved? {
        ActKeepsInv(s, t, a);
        PlayKeepsInv(Act(s, t, a).state, schedule[1..]);
      } else {
        PlayKeepsInv(s, schedule[1..]);
      }
    }
  }

  // ---------------------------------------------------------------- results

  /**
   * In every run of any number of threads calling Lock and Unlock as they like, at most one
   * thread is inside; between its calls mCount is its depth and mThreadId its id; and the permit
   * is there exactly when no thread has it.
   */
  lemma MutualExclusion(threads: nat, schedule: seq<(nat, Action)>)
    ensures var s := Play(Create(threads), schedule);
            && Inv(s)
            && (forall t, u :: 0 <= t < |s.pcs| && 0 <= u < |s.pcs| && s.depth[t] > 0 && s.depth[u] > 0 ==> t == u)
            && (forall t :: 0 <= t < |s.pcs| && s.pcs[t].Out? && s.depth[t] > 0 ==>
                              s.count == s.depth[t] && s.threadId == Some(t) && s.permits == 0)
            && (s.permits == 1 <==> forall t :: 0 <= t < |s.pcs| ==> !HasPermit(Th(s.pcs[t], s.depth[t])))
            && 0 <= s.permits <= 1
  {
    CreateInv(threads);
    PlayKeepsInv(Create(threads), schedule);
    var s := Play(Create(threads), schedule);
    forall t, u | 0 <= t < |s.pcs| && 0 <= u < |s.pcs| && s.depth[t] > 0 && s.depth[u] > 0 ensures t == u {
      assert Threads(s)[t] == Th(s.pcs[t], s.depth[t]) && Threads(s)[u] == Th(s.pcs[u], s.depth[u]);
      PermitAlone(s, t, u);
    }
    SumBounds(PermitUnit, Threads(s));
    forall t | 0 <= t < |s.pcs| && s.pcs[t].Out? && s.depth[t] > 0
      ensures s.count == s.depth[t] && s.threadId == Some(t) && s.permits == 0
    {
      assert ThOk(s, Threads(s)[t]);
      assert PermitUnit(Threads(s)[t]) == 1;
    }
    if forall t :: 0 <= t < |s.pcs| ==> !HasPermit(Th(s.pcs[t], s.depth[t])) {
      SumZero(PermitUnit, Threads(s));
    }
    if s.permits == 1 {
      forall t | 0 <= t < |s.pcs| ensures !HasPermit(Th(s.pcs[t], s.depth[t])) {
        assert PermitUnit(Threads(s)[t]) <= 0;
      }
    }
  }

  lemma CreateInv(threads: nat)
    ensures Inv(Create(threads))
  {
    SumZero(PermitUnit, Threads(Create(threads)));
  }

  // ---------------------------------------------------------------- what the callers hold

  predicate InLock(pc: PC)
  {
    pc.LockRead? || pc.Again? || pc.AgainWrite? || pc.LockTake? || pc.SetOwner? || pc.SetCount?
  }

  /** In an Unlock that has found its caller to be the owner, and will return true. */
  predicate InUnlock(pc: PC)
  {
    pc.Drop? || pc.DropWrite? || pc.DropTest? || pc.ClearOwner? || pc.GivePermit?
  }

  /** What a thread's step does to the number of Locks it holds: one more when a Lock returns, one
      less when an Unlock returns true. */
  function Returned(pc: PC, pc': PC): int
  {
    if !pc'.Out? then 0 else if InLock(pc) then 1 else if InUnlock(pc) then -1 else 0
  }

  /** The Locks of thread t that have returned in a run, less its Unlocks that returned true. */
  function Held(s: State, schedule: seq<(nat, Action)>, t: nat): int
    requires |s.pcs| == |s.depth|
    decreases |schedule|
  {
    if schedule == [] then 0
    else
      var (u, a) := schedule[0];
      if u < |s.pcs| && Act(s, u, a).Moved? then
        var s' := Act(s, u, a).state;
        (if u == t && |s'.pcs| == |s.pcs| then Returned(s.pcs[t], s'.pcs[t]) else 0)
        + (if |s'.pcs| == |s'.depth| then Held(s', schedule[1..], t) else 0)
      else Held(s, schedule[1..], t)
  }

  /** A Lock never returns without the mutex: the step that ends it makes the thread one level deeper. */
  lemma LockReturnsInside(s: State, t: nat, a: Action)
    requires Inv(s) && t < |s.pcs| && Act(s, t, a).Moved?
    ensures var s' := Act(s, t, a).state;
            && |s'.pcs| == |s'.depth| == |s.pcs|
            && (forall u :: 0 <= u < |s.pcs| && u != t ==> s'.pcs[u] == s.pcs[u] && s'.depth[u] == s.depth[u])
            && (InLock(s.pcs[t]) && s'.pcs[t].Out? ==> s'.depth[t] == s.depth[t] + 1 > 0 && s'.threadId == Some(t))
            && s'.depth[t] + Leaving(s'.pcs[t]) == s.depth[t] + Leaving(s.pcs[t]) + Returned(s.pcs[t], s'.pcs[t])
  {
    hide Sum;
    assert ThOk(s, Threads(s)[t]);
  }

  /** 1 for a thread whose Unlock is already counted but has not returned. */
  function Leaving(pc: PC): int
  {
    if pc.DropTest? || pc.ClearOwner? || pc.GivePermit? then 1 else 0
  }

  lemma {:induction false} HeldIsDepth(s: State, schedule: seq<(nat, Action)>, t: nat)
    requires Inv(s) && t < |s.pcs|
    ensures |Play(s, schedule).pcs| == |Play(s, schedule).depth| == |s.pcs|
    ensures Play(s, schedule).depth[t] + Leaving(Play(s, schedule).pcs[t])
            == s.depth[t] + Leaving(s.pcs[t]) + Held(s, schedule, t)
    decreases |schedule|
  {
    hide Sum, ThOk, Act, Leaving, Returned;
    if schedule != [] {
      var (u, a) := schedule[0];
      if u < |s.pcs| && Act(s, u, a).Moved? {
        ActKeepsInv(s, u, a);
        LockReturnsInside(s, u, a);
        HeldIsDepth(Act(s, u, a).state, schedule[1..], t);
      } else {
        HeldIsDepth(s, schedule[1..], t);
      }
    }
  }

  /**
   * What callers may rely on, told by nothing but which calls have returned: in every run of any
   * number of threads, at most one thread has more Locks returned than Unlocks; between its calls
   * mThreadId names it and mCount is how many; and no thread ever has fewer.
   */
  lemma LockedByOne(threads: nat, schedule: seq<(nat, Action)>, t: nat, u: nat)
    requires t < threads && u < threads
    ensures Held(Create(threads), schedule, t) >= 0
    ensures Held(Create(threads), schedule, t) > 0 && Held(Create(threads), schedule, u) > 0 ==> t == u
    ensures var s := Play(Create(threads), schedule);
            && |s.pcs| == threads
            && (s.pcs[t].Out? && Held(Create(threads), schedule, t) > 0 ==>
                  s.threadId == Some(t) && s.count == Held(Create(threads), schedule, t))
  {
    CreateInv(threads);
    PlayKeepsInv(Create(threads), schedule);
    HeldIsDepth(Create(threads), schedule, t);
    HeldIsDepth(Create(threads), schedule, u);
    hide Sum;
    var s := Play(Create(threads), schedule);
    assert ThOk(s, Threads(s)[t]) && ThOk(s, Threads(s)[u]);
    if HasPermit(Threads(s)[t]) && HasPermit(Threads(s)[u]) { PermitAlone(s, t, u); }
  }

  // ---------------------------------------------------------------- the owner's calls among everybody else's

  /** What a thread sees of the mutex, with its own place in the code and its depth. */
  datatype View = View(pc: PC, depth: int, threadId: Option<nat>, count: int, permits: int)

  function ViewOf(s: State, t: nat): View
    requires t < |s.pcs| == |s.depth|
  {
    View(s.pcs[t], s.depth[t], s.threadId, s.count, s.permits)
  }

  /** What a step does to the thread's view, said in terms of the view. */
  function Seen(v: View, t: nat): View
  {
    match v.pc
    case Out => v
    case LockRead => v.(pc := if v.threadId == Some(t) then Again else LockTake)
    case Again => v.(pc := AgainWrite(v.count))
    case AgainWrite(seen) => v.(pc := Out, depth := v.depth + 1, count := seen + 1)
    case LockTake => if v.permits <= 0 then v else v.(pc := SetOwner, permits := v.permits - 1)
    case SetOwner => v.(pc := SetCount, threadId := Some(t))
    case SetCount => v.(pc := Out, depth := v.depth + 1, count := 1)
    case UnlockRead => v.(pc := if v.threadId != Some(t) then Out else Drop)
    case Drop => v.(pc := DropWrite(v.count))
    case DropWrite(seen) => v.(pc := DropTest, depth := v.depth - 1, count := seen - 1)
    case DropTest => v.(pc := if v.count > 0 then Out else ClearOwner)
    case ClearOwner => v.(pc := GivePermit, threadId := None)
    case GivePermit => v.(pc := Out, permits := v.permits + 1)
  }

  /** The thread's own action, as it sees it; nothing happens if it has to wait. */
  function ViewAct(v: View, t: nat, a: Action): View
  {
    if a.Go? then Seen(v, t) else if !v.pc.Out? then v else v.(pc := if a.CallLock? then LockRead else UnlockRead)
  }

  function ViewPlay(v: View, t: nat, actions: seq<Action>): View
    decreases |actions|
  {
    if actions == [] then v else ViewPlay(ViewAct(v, t, actions[0]), t, actions[1..])
  }

  /** What thread t does in a schedule. */
  function OwnActions(schedule: seq<(nat, Action)>, t: nat): seq<Action>
  {
    if schedule == [] then []
    else if schedule[0].0 == t then [schedule[0].1] + OwnActions(schedule[1..], t)
    else OwnActions(schedule[1..], t)
  }

  /** The thread has the permit before each of the actions. */
  predicate StaysIn(v: View, t: nat, actions: seq<Action>)
    decreases |actions|
  {
    actions == [] || (HasPermit(Th(v.pc, v.depth)) && StaysIn(ViewAct(v, t, actions[0]), t, actions[1..]))
  }

  /** A thread's action does to its view the same whoever else is about. */
  lemma ActIsViewAct(s: State, t: nat, a: Action)
    requires t < |s.pcs| == |s.depth|
    ensures var o := Act(s, t, a);
            if o.Moved? then |o.state.pcs| == |o.state.depth| == |s.pcs| && ViewOf(o.state, t) == ViewAct(ViewOf(s, t), t, a)
            else ViewAct(ViewOf(s, t), t, a) == ViewOf(s, t)
  {
  }

  /** Nobody else can change what a thread with the permit sees. */
  lemma OthersLeaveAlone(s: State, t: nat, u: nat, a: Action)
    requires Inv(s) && t < |s.pcs| && u < |s.pcs| && u != t && HasPermit(Threads(s)[t]) && Act(s, u, a).Moved?
    ensures |Act(s, u, a).state.pcs| == |Act(s, u, a).state.depth| == |s.pcs|
    ensures ViewOf(Act(s, u, a).state, t) == ViewOf(s, t)
  {
    hide Sum;
    SumBounds(PermitUnit, Threads(s));
    assert PermitUnit(Threads(s)[t]) == 1;
    if HasPermit(Threads(s)[u]) { PermitAlone(s, t, u); }
    assert ThOk(s, Threads(s)[u]) && !Registered(Threads(s)[u]);
  }

  /**
   * While a thread has the permit, any interleaving with any others leaves it with what its own
   * actions alone would (up to its last action, if that gives the permit back).
   */
  lemma {:induction false} Undisturbed(s: State, t: nat, schedule: seq<(nat, Action)>)
    requires Inv(s) && t < |s.pcs| && StaysIn(ViewOf(s, t), t, OwnActions(schedule, t))
    requires var v := ViewPlay(ViewOf(s, t), t, OwnActions(schedule, t));
             HasPermit(Th(v.pc, v.depth)) || (schedule != [] && schedule[|schedule| - 1].0 == t)
    ensures |Play(s, schedule).pcs| == |Play(s, schedule).depth| == |s.pcs|
    ensures ViewOf(Play(s, schedule), t) == ViewPlay(ViewOf(s, t), t, OwnActions(schedule, t))
    decreases |schedule|
  {
    if schedule != [] {
      var (u, a) := schedule[0];
      var s' := if u < |s.pcs| && Act(s, u, a).Moved? then Act(s, u, a).state else s;
      if u < |s.pcs| && Act(s, u, a).Moved? {
        ActKeepsInv(s, u, a);
        if u != t {
          if schedule[|schedule| - 1].0 == t { LastIsOwn(schedule, t); }
          OthersLeaveAlone(s, t, u, a);
        }
      }
      if u == t { ActIsViewAct(s, t, a); }
      hide Inv, Act, ViewAct, HasPermit;
      if |schedule| > 1 || u != t {
        Undisturbed(s', t, schedule[1..]);
      } else {
        assert OwnActions(schedule[1..], t) == [];
      }
    }
  }

  lemma {:induction false} LastIsOwn(schedule: seq<(nat, Action)>, t: nat)
    requires schedule != [] && schedule[|schedule| - 1].0 == t
    ensures OwnActions(schedule, t) != []
  {
    if |schedule| > 1 { LastIsOwn(schedule[1..], t); }
  }

  /**
   * The owner locks again: however the four actions of its call are interleaved with what others
   * do, it never waits, and when the call is over it is one level deeper and nothing else differs.
   */
  lemma OwnerReenters(s: State, t: nat, schedule: seq<(nat, Action)>)
    requires Inv(s) && t < |s.pcs| && s.pcs[t].Out? && s.depth[t] > 0
    requires OwnActions(schedule, t) == [CallLock, Go, Go, Go]
    ensures |Play(s, schedule).pcs| == |Play(s, schedule).depth| == |s.pcs|
    ensures ViewOf(Play(s, schedule), t) == View(Out, s.depth[t] + 1, Some(t), s.depth[t] + 1, 0)
  {
    var v := OwnerView(s, t);
    FourSteps(v, t);
    Undisturbed(s, t, schedule);
  }

  lemma OwnerView(s: State, t: nat) returns (v: View)
    requires Inv(s) && t < |s.pcs| && s.pcs[t].Out? && s.depth[t] > 0
    ensures v == ViewOf(s, t) == View(Out, s.depth[t], Some(t), s.depth[t], 0)
  {
    v := ViewOf(s, t);
    assert ThOk(s, Threads(s)[t]) && Registered(Threads(s)[t]);
    SumBounds(PermitUnit, Threads(s));
    assert PermitUnit(Threads(s)[t]) == 1;
  }

  /** One action, and then the rest. */
  lemma Ahead(v: View, t: nat, a: Action, v': View, rest: seq<Action>)
    requires v' == ViewAct(v, t, a) && HasPermit(Th(v.pc, v.depth)) && StaysIn(v', t, rest)
    ensures StaysIn(v, t, [a] + rest) && ViewPlay(v, t, [a] + rest) == ViewPlay(v', t, rest)
  {
    assert ([a] + rest)[1..] == rest;
  }

  lemma FourSteps(v: View, t: nat)
    requires v.pc.Out? && v.depth > 0 && v.threadId == Some(t) && v.count == v.depth
    ensures StaysIn(v, t, [CallLock, Go, Go, Go])
    ensures ViewPlay(v, t, [CallLock, Go, Go, Go]) == v.(depth := v.depth + 1, count := v.depth + 1)
  {
    var v1, v2, v3 := v.(pc := LockRead), v.(pc := Again), v.(pc := AgainWrite(v.count));
    Ahead(v3, t, Go, v.(depth := v.depth + 1, count := v.depth + 1), []);
    Ahead(v2, t, Go, v3, [Go]);
    Ahead(v1, t, Go, v2, [Go, Go]);
    Ahead(v, t, CallLock, v1, [Go, Go, Go]);
  }

  /** A Lock of a free mutex that nobody disturbs gets it. */
  lemma LockAlone(s: State, t: nat)
    requires Inv(s) && t < |s.pcs| && s.pcs[t].Out? && s.permits == 1
    ensures var s' := Play(s, [(t, CallLock), (t, Go), (t, Go), (t, Go), (t, Go)]);
            |s'.pcs| == |s'.depth| == |s.pcs| && ViewOf(s', t) == View(Out, 1, Some(t), 1, 0)
  {
    hide Sum, Play;
    assert ThOk(s, Threads(s)[t]);
    assert s.depth[t] == 0 by {
      SumBounds(PermitUnit, Threads(s));
      assert PermitUnit(Threads(s)[t]) <= 0;
    }
    var s1 := At(s, t, LockRead);
    var s2 := At(s1, t, LockTake);
    var s3 := At(s2, t, SetOwner).(permits := 0);
    var s4 := At(s3, t, SetCount).(threadId := Some(t));
    var s5 := Deeper(At(s4, t, Out), t, 1).(count := 1);
    assert !Registered(Threads(s)[t]);
    Five(s, t, s1, s2, s3, s4, s5);
  }

  lemma Five(s: State, t: nat, s1: State, s2: State, s3: State, s4: State, s5: State)
    requires t < |s.pcs| == |s.depth| == |s1.pcs| == |s1.depth| == |s2.pcs| == |s2.depth|
    requires |s.pcs| == |s3.pcs| == |s3.depth| == |s4.pcs| == |s4.depth| == |s5.pcs| == |s5.depth|
    requires Act(s, t, CallLock) == Moved(s1) && Act(s1, t, Go) == Moved(s2) && Act(s2, t, Go) == Moved(s3)
    requires Act(s3, t, Go) == Moved(s4) && Act(s4, t, Go) == Moved(s5)
    ensures Play(s, [(t, CallLock), (t, Go), (t, Go), (t, Go), (t, Go)]) == s5
  {
    hide Act;
    var g := (t, Go);
    Goes(s4, t, Go, s5, []);
    Goes(s3, t, Go, s4, [g]);
    Goes(s2, t, Go, s3, [g, g]);
    Goes(s1, t, Go, s2, [g, g, g]);
    Goes(s, t, CallLock, s1, [g, g, g, g]);
    assert [(t, CallLock)] + [g, g, g, g] == [(t, CallLock), g, g, g, g];
  }

  lemma Goes(s: State, t: nat, a: Action, s': State, rest: seq<(nat, Action)>)
    requires t < |s.pcs| == |s.depth| && Act(s, t, a) == Moved(s') && |s'.pcs| == |s'.depth|
    ensures Play(s, [(t, a)] + rest) == Play(s', rest)
  {
    hide Act;
    assert ([(t, a)] + rest)[1..] == rest;
  }

  /**
   * Unlock by the owner, interleaved with others in any way: it goes down one level, and the owner
   * is forgotten and the permit back, exactly when that level was the last.
   */
  lemma OwnerUnlocks(s: State, t: nat, schedule: seq<(nat, Action)>)
    requires Inv(s) && t < |s.pcs| && s.pcs[t].Out? && s.depth[t] > 0
    requires OwnActions(schedule, t) == [CallUnlock, Go, Go, Go, Go] + if s.depth[t] > 1 then [] else [Go, Go]
    requires s.depth[t] > 1 || (schedule != [] && schedule[|schedule| - 1].0 == t)
    ensures |Play(s, schedule).pcs| == |Play(s, schedule).depth| == |s.pcs|
    ensures ViewOf(Play(s, schedule), t)
            == if s.depth[t] > 1 then View(Out, s.depth[t] - 1, Some(t), s.depth[t] - 1, 0) else View(Out, 0, None, 0, 1)
  {
    var v := OwnerView(s, t);
    UnlockSteps(v, t);
    Undisturbed(s, t, schedule);
  }

  lemma UnlockSteps(v: View, t: nat)
    requires v.pc.Out? && v.depth > 0 && v.threadId == Some(t) && v.count == v.depth && v.permits == 0
    ensures var own := [CallUnlock, Go, Go, Go, Go] + if v.depth > 1 then [] else [Go, Go];
            && StaysIn(v, t, own)
            && ViewPlay(v, t, own) == if v.depth > 1 then v.(depth := v.depth - 1, count := v.depth - 1)
                                      else View(Out, 0, None, 0, 1)
  {
    hide StaysIn, ViewPlay;
    var last := if v.depth > 1 then [Go] else [Go, Go, Go];
    var v1, v2, v3 := v.(pc := UnlockRead), v.(pc := Drop), v.(pc := DropWrite(v.count));
    var v4 := v.(pc := DropTest, depth := v.depth - 1, count := v.depth - 1);
    TestSteps(v4, t);
    Ahead(v3, t, Go, v4, last);
    Ahead(v2, t, Go, v3, [Go] + last);
    Ahead(v1, t, Go, v2, [Go] + ([Go] + last));
    Ahead(v, t, CallUnlock, v1, [Go] + ([Go] + ([Go] + last)));
    assert [CallUnlock] + ([Go] + ([Go] + ([Go] + last))) == [CallUnlock, Go, Go, Go, Go] + if v.depth > 1 then [] else [Go, Go];
  }

  lemma TestSteps(v: View, t: nat)
    requires v.pc.DropTest? && v.depth >= 0 && v.threadId == Some(t) && v.count == v.depth && v.permits == 0
    ensures var own := if v.depth > 0 then [Go] else [Go, Go, Go];
            StaysIn(v, t, own) && ViewPlay(v, t, own) == if v.depth > 0 then v.(pc := Out) else View(Out, 0, None, 0, 1)
  {
    if v.depth > 0 {
      Ahead(v, t, Go, v.(pc := Out), []);
    } else {
      var v1, v2 := v.(pc := ClearOwner), v.(pc := GivePermit, threadId := None);
      Ahead(v2, t, Go, View(Out, 0, None, 0, 1), []);
      Ahead(v1, t, Go, v2, [Go]);
      Ahead(v, t, Go, v1, [Go, Go]);
    }
  }

  /** Unlock by a thread that is not inside: its one step reads that and changes nothing. */
  lemma StrangerUnlockDoesNothing(s: State, t: nat)
    requires Inv(s) && t < |s.pcs| && s.depth[t] == 0
    ensures s.pcs[t].Out? ==> Act(s, t, CallUnlock) == Moved(At(s, t, UnlockRead))
    ensures s.pcs[t].UnlockRead? ==> Run(s, t) == Moved(At(s, t, Out))
  {
    assert s.pcs[t].UnlockRead? ==> !Registered(Threads(s)[t]);
  }

  /** Whoever waits in Lock waits for a thread that is inside: the mutex itself never jams. */
  lemma WaitersWaitForAnOwner(s: State, t: nat)
    requires Inv(s) && t < |s.pcs| && s.pcs[t].LockTake?
    requires forall u :: 0 <= u < |s.pcs| ==> !Run(s, u).Moved?
    ensures exists u :: 0 <= u < |s.pcs| && u != t && s.pcs[u].Out? && s.depth[u] > 0
  {
    assert !Run(s, t).Moved?;
    assert exists u :: 0 <= u < |s.pcs| && HasPermit(Threads(s)[u]) by {
      if forall u :: 0 <= u < |s.pcs| ==> !HasPermit(Threads(s)[u]) { SumZero(PermitUnit, Threads(s)); }
    }
    var u :| 0 <= u < |s.pcs| && HasPermit(Threads(s)[u]);
    assert ThOk(s, Threads(s)[u]) && ThOk(s, Threads(s)[t]);
    assert !Run(s, u).Moved?;
  }
}
