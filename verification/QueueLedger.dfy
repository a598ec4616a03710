/**
 * Where every event is that was ever given to Put: told by nothing but the calls made, the results
 * collected and the events turned away in a run of XLEventQueue.
 */
module QueueLedger {
  import opened Basics
  import opened EventQueue
  import LFQ = LockFreeQueue

  function OfferUnit<T(==)>(e: T): PC<T> -> int
  {
    pc => if Offered(pc) == Some(e) then 1 else 0
  }

  function CarryUnit<T(==)>(e: T): PC<T> -> int
  {
    pc => if Carried(pc) == Some(e) then 1 else 0
  }

  /** How many calls of Put have this event with them, neither in the queue nor turned away. */
  function OnOffer<T(==)>(s: State<T>, e: T): int
  {
    Sum(OfferUnit(e), s.pcs)
  }

  /** How many calls of Get have this event with them. */
  function InHands<T(==)>(s: State<T>, e: T): int
  {
    Sum(CarryUnit(e), s.pcs)
  }

  /** A step in the queue moves an event from one place to the next. */
  lemma StepMoves<T>(s: State<T>, t: nat, s': State<T>, e: T)
    requires t < |s.pcs| && Refines(s, t, s')
    ensures multiset(s'.pushed)[e] + OnOffer(s', e) + (if EffectOf(s, t) == Reject(e) then 1 else 0)
            == multiset(s.pushed)[e] + OnOffer(s, e)
    ensures multiset(s'.popped)[e] - InHands(s', e) == multiset(s.popped)[e] - InHands(s, e)
  {
    hide LFQ.Live, LFQ.QOk, Sum;
    SumUpdate(OfferUnit(e), s.pcs, t, s'.pcs[t]);
    SumUpdate(CarryUnit(e), s.pcs, t, s'.pcs[t]);
    match EffectOf(s, t)
    case Enqueue(x) => assert multiset(s.pushed + [x]) == multiset(s.pushed) + multiset{x};
    case Dequeue(x) => assert multiset(s.popped + [x]) == multiset(s.popped) + multiset{x};
    case _ =>
  }

  /** A call that begins or ends. */
  lemma CallMoves<T>(s: State<T>, t: nat, pc': PC<T>, e: T)
    requires t < |s.pcs|
    ensures OnOffer(At(s, t, pc'), e) == OnOffer(s, e) - OfferUnit(e)(s.pcs[t]) + OfferUnit(e)(pc')
    ensures InHands(At(s, t, pc'), e) == InHands(s, e) - CarryUnit(e)(s.pcs[t]) + CarryUnit(e)(pc')
  {
    SumUpdate(OfferUnit(e), s.pcs, t, pc');
    SumUpdate(CarryUnit(e), s.pcs, t, pc');
  }

  /** What a run did with an event: Puts called with it, Puts of it turned away, and Gets that returned it. */
  datatype Tally = Tally(called: nat, rejected: nat, collected: nat)

  function Counted<T(==)>(s: State<T>, t: nat, a: Action<T>, e: T): Tally
    requires t < |s.pcs|
  {
    match a
    case CallPut(x) => Tally(if x == e then 1 else 0, 0, 0)
    case CallGet => Tally(0, 0, 0)
    case Go => Tally(0, if EffectOf(s, t) == Reject(e) then 1 else 0, 0)
    case Return => Tally(0, 0, if s.pcs[t] == GetDone(Some(e)) then 1 else 0)
  }

  /** Over all the actions of a run that were possible. */
  function TallyOf<T(==)>(cfg: Config, s: State<T>, schedule: seq<(nat, Action<T>)>, e: T): Tally
    decreases |schedule|
  {
    if schedule == [] then Tally(0, 0, 0)
    else if schedule[0].0 >= |s.pcs| then TallyOf(cfg, s, schedule[1..], e)
    else match Act(cfg, s, schedule[0].0, schedule[0].1)
         case Blocked => TallyOf(cfg, s, schedule[1..], e)
         case Fault => Tally(0, 0, 0)
         case Moved(s') =>
           var (now, rest) := (Counted(s, schedule[0].0, schedule[0].1, e), TallyOf(cfg, s', schedule[1..], e));
           Tally(now.called + rest.called, now.rejected + rest.rejected, now.collected + rest.collected)
  }

  lemma ActMoves<T>(cfg: Config, s: State<T>, t: nat, a: Action<T>, e: T)
    requires Inv(cfg, s) && t < |s.pcs| && Act(cfg, s, t, a).Moved?
    ensures var (s', n) := (Act(cfg, s, t, a).state, Counted(s, t, a, e));
            && multiset(s'.pushed)[e] + OnOffer(s', e) + n.rejected == multiset(s.pushed)[e] + OnOffer(s, e) + n.called
            && multiset(s'.popped)[e] - InHands(s', e) == multiset(s.popped)[e] - InHands(s, e) + n.collected
  {
    hide Inv, Run, Sum;
    if a.Go? {
      StepOfCall(cfg, s, t);
      StepMoves(s, t, Act(cfg, s, t, a).state, e);
    } else {
      CallMoves(s, t, Act(cfg, s, t, a).state.pcs[t], e);
      if a.Return? && s.pcs[t].GetDone? { GetHasEvent(cfg, s, t); }
    }
  }

  lemma {:induction false} PlayMoves<T>(cfg: Config, s: State<T>, schedule: seq<(nat, Action<T>)>, e: T)
    requires Inv(cfg, s)
    ensures Play(cfg, s, schedule).Some?
    ensures var (s', n) := (Play(cfg, s, schedule).value, TallyOf(cfg, s, schedule, e));
            && multiset(s'.pushed)[e] + OnOffer(s', e) + n.rejected == multiset(s.pushed)[e] + OnOffer(s, e) + n.called
            && multiset(s'.popped)[e] - InHands(s', e) == multiset(s.popped)[e] - InHands(s, e) + n.collected
    decreases |schedule|
  {
    hide Inv, Act, OnOffer, InHands, Counted;
    if schedule != [] {
      var (t, a) := schedule[0];
      if t >= |s.pcs| {
        PlayMoves(cfg, s, schedule[1..], e);
      } else {
        ActKeepsInv(cfg, s, t, a);
        if Act(cfg, s, t, a).Moved? {
          ActMoves(cfg, s, t, a, e);
          PlayMoves(cfg, Act(cfg, s, t, a).state, schedule[1..], e);
        } else {
          PlayMoves(cfg, s, schedule[1..], e);
        }
      }
    }
  }

  /**
   * Over every run of any number of callers: of every event, each Put called with it is still under
   * way with it, or was turned away, or the event is in the queue, in the hands of a Get under way,
   * or was returned by a Get. So nothing is lost, made up or returned twice.
   */
  lemma EveryEventIsSomewhere<T>(cfg: Config, dummy: T, maxSize: nat, threads: nat, schedule: seq<(nat, Action<T>)>, e: T)
    ensures Play(cfg, Init(dummy, maxSize, threads), schedule).Some?
    ensures var s := Play(cfg, Init(dummy, maxSize, threads), schedule).value;
            var n := TallyOf(cfg, Init(dummy, maxSize, threads), schedule, e);
            && 0 <= OnOffer(s, e) && 0 <= InHands(s, e)
            && n.called == OnOffer(s, e) + n.rejected + multiset(LFQ.Live(s.q))[e] + InHands(s, e) + n.collected
  {
    hide Inv, LFQ.Live;
    var s0 := Init(dummy, maxSize, threads);
    InitInv(cfg, dummy, maxSize, threads);
    PlayMoves(cfg, s0, schedule, e);
    SumZero(OfferUnit(e), s0.pcs);
    SumZero(CarryUnit(e), s0.pcs);
    PermitConservation(cfg, dummy, maxSize, threads, schedule);
    var s := Play(cfg, s0, schedule).value;
    SumBounds(OfferUnit(e), s.pcs);
    SumBounds(CarryUnit(e), s.pcs);
    assert multiset(s.popped + LFQ.Live(s.q)) == multiset(s.popped) + multiset(LFQ.Live(s.q));
  }
}
