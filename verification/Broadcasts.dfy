/**
 * What XLServingThread makes of the events it takes: every BROADCAST event that is taken is sent,
 * to the clients whose ACCEPT_INCOMING came before it in the event queue.
 */
module Broadcasts {
  import opened Basics
  import opened ServingThread
  import LFQ = LockFreeQueue
  import EQ = EventQueue
  import QL = QueueLedger

  /** How many ACCEPT_INCOMING events there are. */
  function Accepts(es: seq<Event>): nat
  {
    multiset(es)[AcceptIncoming]
  }

  /** For every BROADCAST event, how many ACCEPT_INCOMING events came before it. */
  function Due(es: seq<Event>): seq<nat>
  {
    if es == [] then []
    else
      var (before, last) := (es[..|es| - 1], es[|es| - 1]);
      Due(before) + if last == Broadcast then [Accepts(before)] else []
  }

  lemma TakeOne(es: seq<Event>, e: Event)
    ensures Due(es + [e]) == Due(es) + if e == Broadcast then [Accepts(es)] else []
    ensures Accepts(es + [e]) == Accepts(es) + if e == AcceptIncoming then 1 else 0
  {
    assert (es + [e])[..|es + [e]| - 1] == es;
    assert multiset(es + [e]) == multiset(es) + multiset{e};
  }

  /** The server has a BROADCAST event, or is sending it. */
  predicate Sending(s: State)
    requires 2 <= |s.progs| == |s.eq.pcs|
  {
    s.progs[SERVER].Casting? || EQ.Carried(s.eq.pcs[SERVER]) == Some(Broadcast)
  }

  /** The server has an ACCEPT_INCOMING event, or is fetching its socket. */
  predicate Serving(s: State)
    requires 2 <= |s.progs| == |s.eq.pcs|
  {
    s.progs[SERVER].Fetching? || EQ.Carried(s.eq.pcs[SERVER]) == Some(AcceptIncoming)
  }

  ghost predicate Sent(s: State)
    requires 2 <= |s.progs| == |s.eq.pcs|
  {
    && |Due(s.eq.popped)| == |s.casts| + (if Sending(s) then 1 else 0)
    && (Sending(s) ==> Due(s.eq.popped)[|s.casts|] == Accepts(s.eq.popped))
    && Accepts(s.eq.popped) == |s.inserted| + s.missed + (if Serving(s) then 1 else 0)
    && (s.refused == 0 ==> forall i :: 0 <= i < |s.casts| ==>
          Due(s.eq.popped)[i] <= |s.inserted| && s.casts[i].0 == set x | x in s.inserted[..Due(s.eq.popped)[i]])
  }

  lemma QueueSent(s: State, t: nat, pick: Socket)
    requires Inv(s) && Sent(s) && t < |s.progs| && (EQ.InPut(s.eq.pcs[t]) || EQ.InGet(s.eq.pcs[t])) && Go(s, t, pick).Moved?
    ensures 2 <= |Go(s, t, pick).state.progs| == |Go(s, t, pick).state.eq.pcs| && Sent(Go(s, t, pick).state)
  {
    hide EQ.Inv, LFQ.QOk, LFQ.Live, EQ.Run, SocketsOk, Covered, CastsOk, Due, Accepts;
    var s' := Go(s, t, pick).state;
    QueueShape(s, t, s'.eq);
    assert ThOk(s.eq.pcs[t], s.progs[t]) && ThOk(s.eq.pcs[SERVER], s.progs[SERVER]);
    var f := EQ.EffectOf(s.eq, t);
    if f.Dequeue? {
      TakeOne(s.eq.popped, f.v);
      assert EQ.InGet(s.eq.pcs[t]) && t == SERVER && s.progs[SERVER].Looping?;
    } else {
      assert s'.eq.popped == s.eq.popped && EQ.Carried(s'.eq.pcs[SERVER]) == EQ.Carried(s.eq.pcs[SERVER]);
    }
  }

  /** A step that neither takes an event nor finishes one. */
  lemma OtherSent(s: State, s': State)
    requires 2 <= |s.progs| == |s.eq.pcs| && Sent(s) && 2 <= |s'.progs| == |s'.eq.pcs|
    requires s'.eq.popped == s.eq.popped && s'.casts == s.casts && s'.inserted == s.inserted && s'.missed == s.missed
    requires s'.refused >= s.refused && Sending(s') == Sending(s) && Serving(s') == Serving(s)
    ensures Sent(s')
  {
  }

  lemma LoopSent(s: State, t: nat)
    requires Inv(s) && Sent(s) && t < |s.progs| && s.progs[t].Looping? && !EQ.InPut(s.eq.pcs[t]) && !EQ.InGet(s.eq.pcs[t])
    requires Loop(s, t).Moved?
    ensures 2 <= |Loop(s, t).state.progs| == |Loop(s, t).state.eq.pcs| && Sent(Loop(s, t).state)
  {
    hide EQ.Inv, LFQ.QOk, LFQ.Live, SocketsOk, Covered, CastsOk, Sent;
    assert ThOk(s.eq.pcs[t], s.progs[t]);
    OtherSent(s, Loop(s, t).state);
  }

  lemma FetchSent(s: State, t: nat)
    requires Inv(s) && Sent(s) && t < |s.progs| && s.progs[t].Fetching? && Fetch(s, t).Moved?
    ensures 2 <= |Fetch(s, t).state.progs| == |Fetch(s, t).state.eq.pcs| && Sent(Fetch(s, t).state)
  {
    hide EQ.Inv, LFQ.QOk, LFQ.Live, LFQ.Turn, Covered, CastsOk, LFQ.SpscInv, Due, Accepts;
    assert ThOk(s.eq.pcs[t], s.progs[t]);
    var s' := Fetch(s, t).state;
    forall i | 0 <= i < |s.casts| && s.refused == 0
      ensures s'.inserted[..Due(s.eq.popped)[i]] == s.inserted[..Due(s.eq.popped)[i]]
    {
    }
  }

  lemma CastSent(s: State, t: nat, pick: Socket)
    requires Inv(s) && Sent(s) && t < |s.progs| && s.progs[t].Casting? && Go(s, t, pick).Moved?
    ensures 2 <= |Go(s, t, pick).state.progs| == |Go(s, t, pick).state.eq.pcs| && Sent(Go(s, t, pick).state)
  {
    hide EQ.Inv, LFQ.QOk, LFQ.Live, LFQ.Turn, CastsOk, LFQ.SpscInv, Due, Accepts, QueuedAccepts;
    assert ThOk(s.eq.pcs[t], s.progs[t]);
    assert s.inserted[..|s.inserted|] == s.inserted;
  }

  lemma ActSent(s: State, t: nat, a: Action)
    requires Inv(s) && Sent(s) && t < |s.progs| && Act(s, t, a).Moved?
    ensures 2 <= |Act(s, t, a).state.progs| == |Act(s, t, a).state.eq.pcs| && Sent(Act(s, t, a).state)
  {
    hide EQ.Inv, LFQ.QOk, LFQ.Live, EQ.Run, LFQ.Turn, SocketsOk, Covered, CastsOk, Sent, Loop, Fetch;
    assert ThOk(s.eq.pcs[t], s.progs[t]);
    var s' := Act(s, t, a).state;
    if a.Step? && (EQ.InPut(s.eq.pcs[t]) || EQ.InGet(s.eq.pcs[t])) {
      QueueSent(s, t, a.pick);
    } else if a.Step? && s.progs[t].Looping? {
      LoopSent(s, t);
    } else if a.Step? && s.progs[t].Fetching? {
      FetchSent(s, t);
    } else if a.Step? && s.progs[t].Casting? {
      CastSent(s, t, a.pick);
    } else {
      OtherSent(s, s');
    }
  }

  // ---------------------------------------------------------------- who posted what

  /** How often an event was posted in a run, and how often one like it was turned away. */
  datatype Tally = Tally(posted: nat, rejected: nat)

  function Counted(s: State, t: nat, a: Action, e: Event): Tally
    requires t < |s.progs| == |s.eq.pcs|
  {
    match a
    case Accept => Tally(0, 0)
    case Post(x) => Tally(if x == e then 1 else 0, 0)
    case Step(_) =>
      Tally(0, if (EQ.InPut(s.eq.pcs[t]) || EQ.InGet(s.eq.pcs[t])) && EQ.EffectOf(s.eq, t) == EQ.Reject(e) then 1 else 0)
  }

  function TallyOf(s: State, schedule: seq<(nat, Action)>, e: Event): Tally
    requires |s.progs| == |s.eq.pcs|
    decreases |schedule|
  {
    if schedule == [] then Tally(0, 0)
    else if schedule[0].0 >= |s.progs| then TallyOf(s, schedule[1..], e)
    else match Act(s, schedule[0].0, schedule[0].1)
         case Blocked => TallyOf(s, schedule[1..], e)
         case Fault => Tally(0, 0)
         case Moved(s') =>
           var now := Counted(s, schedule[0].0, schedule[0].1, e);
           var rest := if |s'.progs| == |s'.eq.pcs| then TallyOf(s', schedule[1..], e) else Tally(0, 0);
           Tally(now.posted + rest.posted, now.rejected + rest.rejected)
  }

  /** What an action other than a step in the queue does to the calls of Put under way. */
  lemma OwnPosted(s: State, t: nat, a: Action)
    requires Inv(s) && t < |s.progs| && Act(s, t, a).Moved? && !(a.Step? && (EQ.InPut(s.eq.pcs[t]) || EQ.InGet(s.eq.pcs[t])))
    ensures var s' := Act(s, t, a).state;
            && |s'.eq.pcs| == |s.eq.pcs| && s'.eq == EQ.At(s.eq, t, s'.eq.pcs[t])
            && EQ.Offered(s.eq.pcs[t]) == None
            && (EQ.Offered(s'.eq.pcs[t]) == (if a.Post? then Some(a.e) else None) || EQ.Offered(s'.eq.pcs[t]) == Some(AcceptIncoming))
            && (a.Post? ==> EQ.Offered(s'.eq.pcs[t]) == Some(a.e))
  {
    hide EQ.Inv, LFQ.QOk, LFQ.Live, EQ.Run, LFQ.Turn, SocketsOk, Covered, CastsOk;
    assert ThOk(s.eq.pcs[t], s.progs[t]);
    assert EQ.At(s.eq, t, s.eq.pcs[t]) == s.eq;
  }

  lemma ActPosted(s: State, t: nat, a: Action, e: Event)
    requires Inv(s) && t < |s.progs| && Act(s, t, a).Moved? && e != AcceptIncoming
    ensures var (s', n) := (Act(s, t, a).state, Counted(s, t, a, e));
            multiset(s'.eq.pushed)[e] + QL.OnOffer(s'.eq, e) + n.rejected == multiset(s.eq.pushed)[e] + QL.OnOffer(s.eq, e) + n.posted
  {
    hide EQ.Inv, LFQ.QOk, LFQ.Live, EQ.Run, LFQ.Turn, SocketsOk, Covered, CastsOk, QL.OnOffer, Loop, Fetch, Enlist;
    var s' := Act(s, t, a).state;
    if a.Step? && (EQ.InPut(s.eq.pcs[t]) || EQ.InGet(s.eq.pcs[t])) {
      QueueShape(s, t, s'.eq);
      QL.StepMoves(s.eq, t, s'.eq, e);
    } else {
      OwnPosted(s, t, a);
      QL.CallMoves(s.eq, t, s'.eq.pcs[t], e);
    }
  }

  lemma {:induction false} PlaySent(s: State, schedule: seq<(nat, Action)>, e: Event)
    requires Inv(s) && Sent(s) && e != AcceptIncoming
    ensures Play(s, schedule).Some? && Inv(Play(s, schedule).value) && Sent(Play(s, schedule).value)
    ensures var (s', n) := (Play(s, schedule).value, TallyOf(s, schedule, e));
            multiset(s'.eq.pushed)[e] + QL.OnOffer(s'.eq, e) + n.rejected == multiset(s.eq.pushed)[e] + QL.OnOffer(s.eq, e) + n.posted
    decreases |schedule|
  {
    hide SocketsOk, CastsOk, Covered, EQ.Inv, Act, Sent, Counted, QL.OnOffer;
    if schedule != [] {
      var (t, a) := schedule[0];
      if t >= |s.progs| {
        PlaySent(s, schedule[1..], e);
      } else {
        ActKeepsInv(s, t, a);
        if Act(s, t, a).Moved? {
          ActSent(s, t, a);
          ActPosted(s, t, a, e);
          PlaySent(Act(s, t, a).state, schedule[1..], e);
        } else {
          PlaySent(s, schedule[1..], e);
        }
      }
    }
  }

  lemma InitSent(eventMax: nat, socketMax: nat, posters: nat)
    ensures Inv(Init(eventMax, socketMax, posters)) && Sent(Init(eventMax, socketMax, posters))
    ensures forall e :: QL.OnOffer(Init(eventMax, socketMax, posters).eq, e) == 0
  {
    InitInv(eventMax, socketMax, posters);
    forall e ensures QL.OnOffer(Init(eventMax, socketMax, posters).eq, e) == 0 {
      SumZero(QL.OfferUnit(e), Init(eventMax, socketMax, posters).eq.pcs);
    }
  }

  /**
   * Every broadcast is sent, over every run: the BROADCAST events taken from the queue are those
   * that were sent and the one the server is at; and as long as m_IncomingQueue turned no socket
   * away, each reached exactly the clients whose ACCEPT_INCOMING was taken before it, once each.
   */
  lemma EveryBroadcastIsSent(eventMax: nat, socketMax: nat, posters: nat, schedule: seq<(nat, Action)>)
    ensures Play(Init(eventMax, socketMax, posters), schedule).Some?
    ensures var s := Play(Init(eventMax, socketMax, posters), schedule).value;
            && 2 <= |s.progs| == |s.eq.pcs|
            && |Due(s.eq.popped)| == multiset(s.eq.popped)[Broadcast] == |s.casts| + (if Sending(s) then 1 else 0)
            && (s.refused == 0 ==> forall i :: 0 <= i < |s.casts| ==>
                  Due(s.eq.popped)[i] <= |s.inserted| && EachOnce(s.casts[i].1, set x | x in s.inserted[..Due(s.eq.popped)[i]]))
  {
    hide EQ.Inv, LFQ.Live, LFQ.QOk, SocketsOk, Covered;
    InitSent(eventMax, socketMax, posters);
    PlaySent(Init(eventMax, socketMax, posters), schedule, Broadcast);
    DueIsOnePer(Play(Init(eventMax, socketMax, posters), schedule).value.eq.popped);
  }

  lemma {:induction false} DueIsOnePer(es: seq<Event>)
    ensures |Due(es)| == multiset(es)[Broadcast]
  {
    if es != [] {
      var n := |es| - 1;
      DueIsOnePer(es[..n]);
      assert es == es[..n] + [es[n]];
    }
  }

  /** Anybody who is not posting may post any event, which is then offered to the queue. */
  lemma PostIsTaken(s: State, t: nat, e: Event)
    requires Inv(s) && t < |s.progs| && s.progs[t].Away? && e != AcceptIncoming
    ensures Act(s, t, Post(e)).Moved?
    ensures var s' := Act(s, t, Post(e)).state; |s'.eq.pcs| == |s.eq.pcs| && EQ.Offered(s'.eq.pcs[t]) == Some(e)
  {
  }

  /**
   * And nothing posted is forgotten before: of every event but ACCEPT_INCOMING, each that anybody
   * posted in a run is still being put, or was turned away, or is queued, or was taken.
   */
  lemma EveryPostIsSomewhere(eventMax: nat, socketMax: nat, posters: nat, schedule: seq<(nat, Action)>, e: Event)
    requires e != AcceptIncoming
    ensures Play(Init(eventMax, socketMax, posters), schedule).Some?
    ensures var s := Play(Init(eventMax, socketMax, posters), schedule).value;
            var n := TallyOf(Init(eventMax, socketMax, posters), schedule, e);
            && 0 <= QL.OnOffer(s.eq, e)
            && n.posted == QL.OnOffer(s.eq, e) + n.rejected + multiset(LFQ.Live(s.eq.q))[e] + multiset(s.eq.popped)[e]
  {
    hide EQ.Exclusive, LFQ.Live, LFQ.QOk, SocketsOk, Covered, CastsOk, Sent;
    InitSent(eventMax, socketMax, posters);
    PlaySent(Init(eventMax, socketMax, posters), schedule, e);
    var s := Play(Init(eventMax, socketMax, posters), schedule).value;
    SumBounds(QL.OfferUnit(e), s.eq.pcs);
    assert s.eq.pushed == s.eq.popped + LFQ.Live(s.eq.q);
    assert multiset(s.eq.popped + LFQ.Live(s.eq.q)) == multiset(s.eq.popped) + multiset(LFQ.Live(s.eq.q));
  }

  // ---------------------------------------------------------------- where nothing moves

  ghost predicate Stuck(s: State)
    requires |s.progs| == |s.eq.pcs|
  {
    forall t, pick :: 0 <= t < |s.progs| ==> !Go(s, t, pick).Moved?
  }

  lemma StuckThread(s: State, t: nat)
    requires Inv(s) && Stuck(s) && t < |s.progs|
    ensures !EQ.Run(CFG, s.eq, t).Moved?
    ensures EQ.InPut(s.eq.pcs[t]) || EQ.InGet(s.eq.pcs[t]) || (s.eq.pcs[t].Idle? && (s.progs[t].Accepting? || s.progs[t].Away?))
  {
    hide EQ.Inv, LFQ.QOk, LFQ.Live, LFQ.Turn, SocketsOk, Covered, CastsOk, Loop, Fetch, Enlist;
    assert ThOk(s.eq.pcs[t], s.progs[t]);
    var pick: Socket := if s.progs[t].Casting? && s.progs[t].todo != {} then (var c :| c in s.progs[t].todo; c) else 0;
    assert !Go(s, t, pick).Moved?;
    if !EQ.InPut(s.eq.pcs[t]) && !EQ.InGet(s.eq.pcs[t]) {
      match s.progs[t]
      case Looping => LoopShape(s, t);
      case Fetching => FetchKeepsInv(s, t);
      case Queueing => EnlistKeepsInv(s, t);
      case _ =>
    }
  }

  lemma StuckServer(s: State)
    requires Inv(s) && Stuck(s)
    ensures s.eq.pcs[SERVER].GetTake? && LFQ.Live(s.eq.q) == []
    ensures forall t :: 0 <= t < |s.progs| ==> !EQ.InPut(s.eq.pcs[t])
  {
    hide EQ.Inv, LFQ.QOk, LFQ.Live, LFQ.Turn, SocketsOk, Covered, CastsOk, Go;
    assert s.progs[SERVER].Looping? || s.progs[SERVER].Fetching? || s.progs[SERVER].Casting?;
    forall t | 0 <= t < |s.progs| ensures !EQ.Run(CFG, s.eq, t).Moved? { StuckThread(s, t); }
    EQ.StuckMeansEmpty(CFG, s.eq);
    StuckThread(s, SERVER);
  }

  /**
   * So wherever a run has come to rest, every BROADCAST that anybody posted was sent or turned
   * away, and the server waits for the next event.
   */
  lemma AllSentAtRest(eventMax: nat, socketMax: nat, posters: nat, schedule: seq<(nat, Action)>)
    requires Play(Init(eventMax, socketMax, posters), schedule).Some?
    requires var s := Play(Init(eventMax, socketMax, posters), schedule).value; |s.progs| == |s.eq.pcs| && Stuck(s)
    ensures var s := Play(Init(eventMax, socketMax, posters), schedule).value;
            var n := TallyOf(Init(eventMax, socketMax, posters), schedule, Broadcast);
            SERVER < |s.eq.pcs| && s.eq.pcs[SERVER].GetTake? && n.posted == n.rejected + |s.casts|
  {
    hide EQ.Inv, LFQ.Live, LFQ.QOk, SocketsOk, Covered, CastsOk, Go, Sent;
    InitInv(eventMax, socketMax, posters);
    PlayKeepsInv(Init(eventMax, socketMax, posters), schedule);
    EveryBroadcastIsSent(eventMax, socketMax, posters, schedule);
    EveryPostIsSomewhere(eventMax, socketMax, posters, schedule, Broadcast);
    var s := Play(Init(eventMax, socketMax, posters), schedule).value;
    StuckServer(s);
    assert ThOk(s.eq.pcs[SERVER], s.progs[SERVER]);
    SumZero(QL.OfferUnit(Broadcast), s.eq.pcs);
  }

  // ---------------------------------------------------------------- every event is handled in the end

  /** How many steps at most a thread still makes before it is at a queue call, or done. */
  function Left(s: State, t: nat): int
    requires t < |s.progs| == |s.eq.pcs|
  {
    match s.progs[t]
    case Looping => if s.eq.pcs[t].GetDone? then 9 + |s.clients| else 0
    case Fetching => EQ.ReaderRank(s.incoming.r)
    case Casting(todo, _) => 1 + |todo|
    case Queueing => EQ.Budget(s.incoming.q, EQ.PutPush(0, s.incoming.w))
    case Telling => if s.eq.pcs[t].PutDone? then 1 else 0
    case Posting(_) => if s.eq.pcs[t].PutDone? then 1 else 0
    case _ => 0
  }

  lemma FetchAdvances(s: State, t: nat)
    requires Inv(s) && t < |s.progs| && s.progs[t].Fetching? && Fetch(s, t).Moved?
    ensures var s' := Fetch(s, t).state; |s'.progs| == |s'.eq.pcs| == |s.progs| && 0 <= Left(s', t) < Left(s, t)
  {
    hide EQ.Inv, LFQ.QOk, LFQ.Live, Covered, CastsOk, LFQ.RStep;
    assert ThOk(s.eq.pcs[t], s.progs[t]);
    EQ.PopShrinks(s.incoming.q, s.incoming.r, None, None);
  }

  lemma EnlistAdvances(s: State, t: nat)
    requires Inv(s) && t < |s.progs| && s.progs[t].Queueing? && Enlist(s, t).Moved?
    ensures var s' := Enlist(s, t).state;
            |s'.progs| == |s'.eq.pcs| == |s.progs| && (EQ.InPut(s'.eq.pcs[t]) || 0 <= Left(s', t) < Left(s, t))
  {
    hide EQ.Inv, LFQ.QOk, LFQ.Live, Covered, CastsOk, LFQ.WStep, EQ.Budget;
    assert ThOk(s.eq.pcs[t], s.progs[t]);
    PushBudget(s.incoming.q, s.incoming.w, s.incoming.arg);
  }

  /** The budget of a push is the same whatever is pushed. */
  lemma PushBudget(q: LFQ.Lfq<Socket>, w: LFQ.WriterPC, data: Socket)
    requires LFQ.QOk(q) && LFQ.WOk(q, w) && !w.WDone?
    ensures LFQ.WStep(q, w, data).Some?
    ensures var (q', w') := LFQ.WStep(q, w, data).value;
            w'.WDone? || 0 <= EQ.Budget(q', EQ.PutPush(0, w')) < EQ.Budget(q, EQ.PutPush(0, w))
  {
    hide EQ.Budget;
    EQ.PushShrinks(q, w, data, 0);
  }

  lemma CastAdvances(s: State, t: nat, pick: Socket)
    requires Inv(s) && t < |s.progs| && s.progs[t].Casting? && Go(s, t, pick).Moved?
    ensures var s' := Go(s, t, pick).state; |s'.progs| == |s'.eq.pcs| == |s.progs| && 0 <= Left(s', t) < Left(s, t)
  {
    hide EQ.Inv, LFQ.QOk, LFQ.Live, SocketsOk, Covered, CastsOk, EQ.Run;
    assert ThOk(s.eq.pcs[t], s.progs[t]);
    var Casting(todo, _) := s.progs[t];
    if pick in todo { assert |todo - {pick}| == |todo| - 1; }
  }

  lemma LoopAdvances(s: State, t: nat)
    requires Inv(s) && t < |s.progs| && s.progs[t].Looping? && s.eq.pcs[t].GetDone? && Loop(s, t).Moved?
    ensures var s' := Loop(s, t).state; |s'.progs| == |s'.eq.pcs| == |s.progs| && 0 <= Left(s', t) < Left(s, t)
  {
    hide EQ.Inv, LFQ.QOk, LFQ.Live, Covered, CastsOk, EQ.Run;
    assert ThOk(s.eq.pcs[t], s.progs[t]);
  }

  /**
   * What a thread does on its own comes to an end: every step it makes outside queue calls, the
   * call of Get for the next event apart, brings it closer to the end of what it is doing, or into
   * the queue; so the server always comes back for the next event and the acceptor for the next socket.
   */
  lemma OwnStepAdvances(s: State, t: nat, pick: Socket)
    requires Inv(s) && t < |s.progs| && !EQ.InPut(s.eq.pcs[t]) && !EQ.InGet(s.eq.pcs[t]) && Go(s, t, pick).Moved?
    ensures var s' := Go(s, t, pick).state;
            && |s'.progs| == |s'.eq.pcs| == |s.progs|
            && (EQ.InPut(s'.eq.pcs[t]) || s'.eq.pcs[t].GetTake? || 0 <= Left(s', t) < Left(s, t))
  {
    hide EQ.Inv, LFQ.QOk, LFQ.Live, SocketsOk, Covered, CastsOk, EQ.Run, Fetch, Enlist, LFQ.Turn;
    assert ThOk(s.eq.pcs[t], s.progs[t]);
    match s.progs[t]
    case Looping => if s.eq.pcs[t].GetDone? { LoopAdvances(s, t); }
    case Fetching => FetchAdvances(s, t);
    case Casting(_, _) => CastAdvances(s, t, pick);
    case Queueing => EnlistAdvances(s, t);
    case _ =>
  }

  /** And nobody else sets it back. */
  lemma OthersLeaveIt(s: State, t: nat, u: nat, a: Action)
    requires Inv(s) && t < |s.progs| && u < |s.progs| && t != u && Act(s, u, a).Moved?
    requires !EQ.InPut(s.eq.pcs[t]) && !EQ.InGet(s.eq.pcs[t])
    ensures var s' := Act(s, u, a).state; |s'.progs| == |s'.eq.pcs| == |s.progs| && s'.progs[t] == s.progs[t] && Left(s', t) == Left(s, t)
  {
    hide EQ.Inv, LFQ.Live, Covered, CastsOk, EQ.Run;
    assert ThOk(s.eq.pcs[u], s.progs[u]) && ThOk(s.eq.pcs[t], s.progs[t]);
    EQ.RunKeepsSize(CFG, s.eq, u);
  }
}
