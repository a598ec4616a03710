/**
 * XLServingThread: the acceptor thread hands a socket over in one queue (m_IncomingQueue) and
 * says so in another (ACCEPT_INCOMING in the event queue); the serving thread takes an event and
 * then the socket, and broadcasts to the clients it has. Both queues are interleaved access by
 * access with each other and with everybody who posts events.
 */
module ServingThread {
  import opened Basics
  import LFQ = LockFreeQueue
  import EQ = EventQueue

  datatype Event = AcceptIncoming | Broadcast | Other

  type Socket = nat

  datatype Prog =
    // the serving thread
    | Looping | Fetching | Casting(todo: set<Socket>, sent: seq<Socket>)
    // the acceptor thread
    | Accepting | Queueing | Telling
    // whoever posts events
    | Away | Posting(e: Event)

  const CFG := EQ.Config(false, true)
  const SERVER: nat := 0
  const ACCEPTOR: nat := 1

  /** The event queue, m_IncomingQueue with its writer and reader, m_ClientIDs. History: the
      sockets accepted, how many of them m_IncomingQueue turned away, how many of the events
      about them the event queue turned away, how many events found no socket, the clients in
      the order of their insertion, and for each broadcast the clients there were and whom it
      was sent to. */
  datatype State = State(eq: EQ.State<Event>, incoming: LFQ.Spsc<Socket>, progs: seq<Prog>, clients: set<Socket>,
                         accepted: seq<Socket>, refused: nat, lost: nat, missed: nat, inserted: seq<Socket>, casts: seq<(set<Socket>, seq<Socket>)>)

  function Init(eventMax: nat, socketMax: nat, posters: nat): State
  {
    State(EQ.Init(Other, eventMax, 2 + posters), LFQ.SpscInit(0, socketMax),
          seq(2 + posters, i => if i == SERVER then Looping else if i == ACCEPTOR then Accepting else Away),
          {}, [], 0, 0, 0, [], [])
  }

  function Goto(s: State, t: nat, pc: EQ.PC<Event>, p: Prog): State
    requires t < |s.progs| && t < |s.eq.pcs|
  {
    s.(eq := EQ.At(s.eq, t, pc), progs := s.progs[t := p])
  }

  datatype Action = Accept | Post(e: Event) | Step(pick: Socket)

  /** OnAccept for a new socket, somebody posts, or thread t makes its next step; `pick` is the
      client a broadcast turns to next. */
  function Act(s: State, t: nat, a: Action): Outcome<State>
    requires t < |s.progs| == |s.eq.pcs|
  {
    match a
    case Accept =>
      if !s.progs[t].Accepting? then Blocked
      else (match LFQ.Turn(s.incoming, LFQ.CallPush(|s.accepted|))
            case None => Fault
            case Some(i) => Moved(s.(incoming := i, accepted := s.accepted + [|s.accepted|], progs := s.progs[t := Queueing])))
    case Post(e) =>
      if !s.progs[t].Away? || e.AcceptIncoming? then Blocked else Moved(Goto(s, t, EQ.PutLock(e), Posting(e)))
    case Step(pick) => Go(s, t, pick)
  }

  function Go(s: State, t: nat, pick: Socket): Outcome<State>
    requires t < |s.progs| == |s.eq.pcs|
  {
    var pc := s.eq.pcs[t];
    if EQ.InPut(pc) || EQ.InGet(pc) then
      (match EQ.Run(CFG, s.eq, t)
       case Blocked => Blocked
       case Fault => Fault
       case Moved(eq') => Moved(s.(eq := eq')))
    else
      match s.progs[t]
      case Looping => Loop(s, t)
      case Fetching => Fetch(s, t)
      case Casting(todo, sent) =>
        if todo == {} then Moved(s.(progs := s.progs[t := Looping], casts := s.casts + [(s.clients, sent)]))
        else if pick in todo then Moved(s.(progs := s.progs[t := Casting(todo - {pick}, sent + [pick])]))
        else Blocked
      case Accepting => Blocked
      case Queueing => Enlist(s, t)
      case Telling => Moved(Goto(s, t, EQ.Idle, Accepting).(lost := s.lost + if pc == EQ.PutDone(false) then 1 else 0))
      case Away => Blocked
      case Posting(_) => Moved(Goto(s, t, EQ.Idle, Away))
  }

  /** The event loop between events, and the branches of t_OnEvent as they begin. */
  function Loop(s: State, t: nat): Outcome<State>
    requires t < |s.progs| == |s.eq.pcs|
  {
    var pc := s.eq.pcs[t];
    if pc.Idle? then (if EQ.MayGet(CFG, s.eq) then Moved(Goto(s, t, EQ.GetTake, Looping)) else Fault)
    else if pc.GetDone? && pc.out.Some? then
      (match pc.out.value
       case AcceptIncoming =>
         (match LFQ.Turn(s.incoming, LFQ.CallPop)
          case None => Fault
          case Some(i) => Moved(Goto(s, t, EQ.Idle, Fetching).(incoming := i)))
       case Broadcast => Moved(Goto(s, t, EQ.Idle, Casting(s.clients, [])))
       case Other => Moved(Goto(s, t, EQ.Idle, Looping)))
    else Fault
  }

  /** m_IncomingQueue.pop, and what the ACCEPT_INCOMING branch does when it returns. */
  function Fetch(s: State, t: nat): Outcome<State>
    requires t < |s.progs| == |s.eq.pcs|
  {
    match LFQ.Turn(s.incoming, LFQ.Read)
    case None => Fault
    case Some(i) =>
      if !i.r.RDone? then Moved(s.(incoming := i))
      else if i.r.out.Some? then
        Moved(s.(incoming := i, progs := s.progs[t := Looping], clients := s.clients + {i.r.out.value},
                 inserted := s.inserted + [i.r.out.value]))
      else Moved(s.(incoming := i, progs := s.progs[t := Looping], missed := s.missed + 1))
  }

  /** m_IncomingQueue.push in OnAccept; whatever it returns, the event is posted. */
  function Enlist(s: State, t: nat): Outcome<State>
    requires t < |s.progs| == |s.eq.pcs|
  {
    match LFQ.Turn(s.incoming, LFQ.Write)
    case None => Fault
    case Some(i) =>
      if !i.w.WDone? then Moved(s.(incoming := i))
      else Moved(Goto(s, t, EQ.PutLock(AcceptIncoming), Telling).(incoming := i, refused := s.refused + if i.w.ok then 0 else 1))
  }

  function Play(s: State, schedule: seq<(nat, Action)>): Option<State>
    requires |s.progs| == |s.eq.pcs|
    decreases |schedule|
  {
    if schedule == [] then Some(s)
    else if schedule[0].0 >= |s.progs| then Play(s, schedule[1..])
    else match Act(s, schedule[0].0, schedule[0].1)
         case Blocked => Play(s, schedule[1..])
         case Fault => None
         case Moved(s') => if |s'.progs| == |s'.eq.pcs| then Play(s', schedule[1..]) else None
  }

  // ---------------------------------------------------------------- invariant

  ghost predicate ThOk(pc: EQ.PC<Event>, p: Prog)
  {
    match p
    case Looping => EQ.Getting(pc)
    case Telling => EQ.Putting(pc, AcceptIncoming)
    case Posting(e) => e != AcceptIncoming && EQ.Putting(pc, e)
    case _ => pc.Idle?
  }

  ghost predicate Shape(s: State)
  {
    && 2 <= |s.progs| == |s.eq.pcs|
    && EQ.Inv(CFG, s.eq)
    && (forall t :: 0 <= t < |s.progs| ==> ThOk(s.eq.pcs[t], s.progs[t]))
    && (forall t :: 0 <= t < |s.progs| ==> (s.progs[t].Looping? || s.progs[t].Fetching? || s.progs[t].Casting? <==> t == SERVER))
    && (forall t :: 0 <= t < |s.progs| ==> (s.progs[t].Accepting? || s.progs[t].Queueing? || s.progs[t].Telling? <==> t == ACCEPTOR))
  }

  /** 1 while the acceptor is past the push and its event is not in the event queue. */
  function Announcing(s: State): int
    requires 2 <= |s.progs| == |s.eq.pcs|
  {
    match s.progs[ACCEPTOR]
    case Queueing => if s.incoming.w.WTail? then 1 else 0
    case Telling => if EQ.Accepted(s.eq.pcs[ACCEPTOR]) then 0 else 1
    case _ => 0
  }

  /** 1 while the server holds an ACCEPT_INCOMING event and has not yet moved the queue on for it. */
  function Expecting(s: State): int
    requires 2 <= |s.progs| == |s.eq.pcs|
  {
    match s.progs[SERVER]
    case Looping => if EQ.Carried(s.eq.pcs[SERVER]) == Some(AcceptIncoming) then 1 else 0
    case Fetching => if s.incoming.r.RCopy? then 0 else 1
    case _ => 0
  }

  function QueuedAccepts(s: State): int
  {
    multiset(LFQ.Live(s.eq.q))[AcceptIncoming]
  }

  /** Sockets and the events about them balance; an event finds no socket only if one was turned away. */
  ghost predicate Covered(s: State)
    requires 2 <= |s.progs| == |s.eq.pcs|
  {
    && |LFQ.Live(s.incoming.q)| + s.refused == QueuedAccepts(s) + Announcing(s) + Expecting(s) + s.missed + s.lost
    && s.missed + (if s.progs[SERVER].Fetching? && s.incoming.r == LFQ.RCmp(LFQ.End) then 1 else 0) <= s.refused
  }

  ghost predicate Rising(s: seq<Socket>, bound: int)
  {
    (forall i, j :: 0 <= i < j < |s| ==> s[i] < s[j]) && (forall i :: 0 <= i < |s| ==> s[i] < bound)
  }

  ghost predicate SocketsOk(s: State)
    requires 2 <= |s.progs| == |s.eq.pcs|
  {
    && LFQ.SpscInv(s.incoming)
    && (s.progs[SERVER].Fetching? <==> !s.incoming.r.RDone?)
    && (s.progs[ACCEPTOR].Queueing? <==> !s.incoming.w.WDone?)
    && s.inserted == s.incoming.returned
    && s.clients == (set x | x in s.inserted)
    && (forall i :: 0 <= i < |s.accepted| ==> s.accepted[i] == i)
    && (s.progs[ACCEPTOR].Queueing? ==> s.accepted != [] && s.incoming.arg == |s.accepted| - 1)
    && Rising(s.incoming.pushed, |s.accepted| - if s.progs[ACCEPTOR].Queueing? && !s.incoming.w.WTail? then 1 else 0)
    && (s.refused == 0 ==>
          s.incoming.pushed == s.accepted[..|s.accepted| - if s.progs[ACCEPTOR].Queueing? && !s.incoming.w.WTail? then 1 else 0])
  }

  /** The sequence names every member of the set once. */
  ghost predicate EachOnce(s: seq<Socket>, c: set<Socket>)
  {
    && (forall i, j :: 0 <= i < j < |s| ==> s[i] != s[j])
    && (set x | x in s) == c
  }

  ghost predicate CastsOk(s: State)
    requires 2 <= |s.progs| == |s.eq.pcs|
  {
    && (forall i :: 0 <= i < |s.casts| ==> EachOnce(s.casts[i].1, s.casts[i].0))
    && (s.progs[SERVER].Casting? ==>
          var Casting(todo, sent) := s.progs[SERVER];
          todo <= s.clients && EachOnce(sent, s.clients - todo))
  }

  ghost predicate Inv(s: State)
  {
    Shape(s) && SocketsOk(s) && Covered(s) && CastsOk(s)
  }

  // ---------------------------------------------------------------- steps in the event queue

  lemma QueueShape(s: State, t: nat, eq': EQ.State<Event>)
    requires Shape(s) && t < |s.progs| && EQ.Run(CFG, s.eq, t) == Moved(eq')
    ensures Shape(s.(eq := eq')) && EQ.Refines(s.eq, t, eq')
  {
    hide EQ.Inv, LFQ.QOk, EQ.Run, EQ.EffectOf;
    EQ.StepOfCall(CFG, s.eq, t);
    assert ThOk(eq'.pcs[t], s.progs[t]);
    assert eq'.pcs == s.eq.pcs[t := eq'.pcs[t]];
  }

  lemma QueueCovered(s: State, t: nat, eq': EQ.State<Event>)
    requires Shape(s) && Covered(s) && t < |s.progs| && EQ.Refines(s.eq, t, eq') && (EQ.InPut(s.eq.pcs[t]) || EQ.InGet(s.eq.pcs[t]))
    ensures |eq'.pcs| == |s.eq.pcs| && Covered(s.(eq := eq'))
  {
    hide LFQ.Live, LFQ.QOk, EQ.Inv;
    assert ThOk(s.eq.pcs[t], s.progs[t]);
    EQ.CountMoves(s.eq, t, eq', AcceptIncoming);
  }

  lemma QueueStepKeepsInv(s: State, t: nat, pick: Socket)
    requires Inv(s) && t < |s.progs| && (EQ.InPut(s.eq.pcs[t]) || EQ.InGet(s.eq.pcs[t]))
    ensures !Go(s, t, pick).Fault?
    ensures Go(s, t, pick).Moved? ==> Inv(Go(s, t, pick).state)
  {
    hide LFQ.Live, LFQ.QOk, EQ.Run, LFQ.SpscInv, Covered;
    EQ.RunKeepsInv(CFG, s.eq, t);
    if EQ.Run(CFG, s.eq, t).Moved? {
      var eq' := EQ.Run(CFG, s.eq, t).state;
      QueueShape(s, t, eq');
      QueueCovered(s, t, eq');
    }
  }

  // ---------------------------------------------------------------- other steps

  lemma OwnShape(s: State, t: nat, pc': EQ.PC<Event>, p': Prog)
    requires Shape(s) && t < |s.progs| && ThOk(pc', p')
    requires || pc' == s.eq.pcs[t]
             || (s.eq.pcs[t].Idle? && pc'.PutLock?) || (s.eq.pcs[t].Idle? && pc'.GetTake? && EQ.MayGet(CFG, s.eq))
             || ((s.eq.pcs[t].PutDone? || s.eq.pcs[t].GetDone?) && pc'.Idle?)
    requires (p'.Looping? || p'.Fetching? || p'.Casting?) == (t == SERVER)
    requires (p'.Accepting? || p'.Queueing? || p'.Telling?) == (t == ACCEPTOR)
    ensures Shape(Goto(s, t, pc', p'))
  {
    hide EQ.Inv;
    if pc' == s.eq.pcs[t] {
      assert EQ.At(s.eq, t, pc') == s.eq;
    } else {
      EQ.CallKeepsInv(CFG, s.eq, t, pc');
    }
  }

  lemma LoopMayGet(s: State)
    requires Shape(s) && s.eq.pcs[SERVER].Idle?
    ensures EQ.MayGet(CFG, s.eq)
  {
    hide EQ.Inv;
    forall u | 0 <= u < |s.eq.pcs| ensures !EQ.InGet(s.eq.pcs[u]) {
      assert ThOk(s.eq.pcs[u], s.progs[u]);
    }
  }

  lemma LoopShape(s: State, t: nat)
    requires Inv(s) && t < |s.progs| && s.progs[t].Looping? && !EQ.InPut(s.eq.pcs[t]) && !EQ.InGet(s.eq.pcs[t])
    ensures Loop(s, t).Moved? && Shape(Loop(s, t).state)
  {
    hide LFQ.Live, LFQ.QOk, EQ.Inv, LFQ.SpscInv;
    assert ThOk(s.eq.pcs[t], s.progs[t]);
    if s.eq.pcs[t].Idle? { LoopMayGet(s); } else { EQ.GetHasEvent(CFG, s.eq, t); }
    var s' := Loop(s, t).state;
    OwnShape(s, t, s'.eq.pcs[t], s'.progs[t]);
  }

  lemma LoopKeepsInv(s: State, t: nat)
    requires Inv(s) && t < |s.progs| && s.progs[t].Looping? && !EQ.InPut(s.eq.pcs[t]) && !EQ.InGet(s.eq.pcs[t])
    ensures Loop(s, t).Moved? && Inv(Loop(s, t).state)
  {
    hide LFQ.Live, LFQ.QOk, EQ.Inv;
    assert ThOk(s.eq.pcs[t], s.progs[t]);
    LoopShape(s, t);
    LFQ.TurnKeepsInv(s.incoming, LFQ.CallPop);
    hide LFQ.WOk;
    assert CastsOk(Loop(s, t).state);
  }

  lemma EnlistShape(s: State, t: nat)
    requires Inv(s) && t < |s.progs| && s.progs[t].Queueing?
    ensures Enlist(s, t).Moved? && Shape(Enlist(s, t).state)
  {
    hide LFQ.Live, LFQ.QOk, EQ.Inv, LFQ.Turn, Covered, CastsOk;
    assert ThOk(s.eq.pcs[t], s.progs[t]);
    PushTurn(s.incoming);
    var s' := Enlist(s, t).state;
    assert EQ.At(s.eq, t, s.eq.pcs[t]) == s.eq && s.progs[t := s.progs[t]] == s.progs;
    OwnShape(s, t, s'.eq.pcs[t], s'.progs[t]);
  }

  lemma EnlistSockets(s: State, t: nat)
    requires Inv(s) && t < |s.progs| && s.progs[t].Queueing?
    requires Enlist(s, t).Moved? && Shape(Enlist(s, t).state)
    ensures SocketsOk(Enlist(s, t).state)
  {
    hide LFQ.Live, LFQ.QOk, EQ.Inv, LFQ.Turn, Covered, CastsOk;
    LFQ.TurnKeepsInv(s.incoming, LFQ.Write);
    PushTurn(s.incoming);
    assert s.accepted[..|s.accepted| - 1] + [s.incoming.arg] == s.accepted == s.accepted[..|s.accepted|];
    assert s.incoming.pushed + [] == s.incoming.pushed;
  }

  lemma EnlistKeepsInv(s: State, t: nat)
    requires Inv(s) && t < |s.progs| && s.progs[t].Queueing?
    ensures Enlist(s, t).Moved? && Inv(Enlist(s, t).state)
  {
    hide LFQ.Live, LFQ.QOk, EQ.Inv, LFQ.Turn;
    assert ThOk(s.eq.pcs[t], s.progs[t]);
    PushTurn(s.incoming);
    EnlistShape(s, t);
    EnlistSockets(s, t);
    var s' := Enlist(s, t).state;
    hide Shape, SocketsOk;
    assert Covered(s');
    assert CastsOk(s');
  }

  /** What one access of push does to the waiting sockets, and that it ends by telling. */
  lemma PushTurn(i: LFQ.Spsc<Socket>)
    requires LFQ.SpscInv(i) && !i.w.WDone?
    ensures LFQ.Turn(i, LFQ.Write).Some?
    ensures var i' := LFQ.Turn(i, LFQ.Write).value;
            && i'.r == i.r && i'.arg == i.arg && i'.popped == i.popped && i'.returned == i.returned
            && i'.pushed == i.pushed + (if i.w.WHook? then [i.arg] else [])
            && |LFQ.Live(i'.q)| == |LFQ.Live(i.q)| + (if i.w.WHook? then 1 else 0)
            && (i'.w.WTail? <==> i.w.WHook?)
            && (i.w.WTail? ==> i'.w.WDone?)
            && (i'.w.WDone? ==> (i'.w.ok <==> i.w.WTail?))
  {
    LFQ.WriterStep(i.q, i.w, i.arg, i.r);
    LFQ.WriterLive(i.q, i.w, i.arg);
  }

  lemma PopTurn(i: LFQ.Spsc<Socket>)
    requires LFQ.SpscInv(i) && !i.r.RDone?
    ensures LFQ.Turn(i, LFQ.Read).Some?
    ensures var i' := LFQ.Turn(i, LFQ.Read).value;
            && i'.w == i.w && i'.arg == i.arg && i'.pushed == i.pushed
            && |LFQ.Live(i'.q)| == |LFQ.Live(i.q)| - (if i.r.RSet? then 1 else 0)
            && (i'.r.RCopy? <==> i.r.RSet?)
            && (i'.r == LFQ.RCmp(LFQ.End) ==> LFQ.Live(i.q) == [])
            && (i'.r.RDone? ==> if i.r.RCopy? then i'.r.out.Some? && i'.returned == i.returned + [i'.r.out.value]
                                else i.r == LFQ.RCmp(LFQ.End) && i'.r.out == None && i'.returned == i.returned)
            && (!i'.r.RDone? ==> i'.returned == i.returned)
            && (i.r == LFQ.RCmp(LFQ.End) ==> i'.r.RDone?)
  {
    LFQ.ReaderStep(i.q, i.r, i.w);
    LFQ.ReaderLive(i.q, i.r);
    LFQ.LiveOk(i.q);
  }

  lemma FetchKeepsInv(s: State, t: nat)
    requires Inv(s) && t < |s.progs| && s.progs[t].Fetching?
    ensures Fetch(s, t).Moved? && Inv(Fetch(s, t).state)
  {
    hide LFQ.Live, LFQ.QOk, EQ.Inv, LFQ.Turn;
    assert ThOk(s.eq.pcs[t], s.progs[t]);
    LFQ.TurnKeepsInv(s.incoming, LFQ.Read);
    PopTurn(s.incoming);
    var s' := Fetch(s, t).state;
    assert EQ.At(s.eq, t, s.eq.pcs[t]) == s.eq && s.progs[t := s.progs[t]] == s.progs;
    OwnShape(s, t, s.eq.pcs[t], s'.progs[t]);
    assert Shape(s');
    assert SocketsOk(s');
  }

  lemma CastKeepsInv(s: State, t: nat, pick: Socket)
    requires Inv(s) && t < |s.progs| && s.progs[t].Casting?
    ensures !Go(s, t, pick).Fault?
    ensures Go(s, t, pick).Moved? ==> Inv(Go(s, t, pick).state)
  {
    hide LFQ.Live, LFQ.QOk, EQ.Inv, LFQ.SpscInv;
    assert ThOk(s.eq.pcs[t], s.progs[t]);
    var Casting(todo, sent) := s.progs[t];
    if Go(s, t, pick).Moved? {
      var s' := Go(s, t, pick).state;
      assert EQ.At(s.eq, t, s.eq.pcs[t]) == s.eq;
      OwnShape(s, t, s.eq.pcs[t], s'.progs[t]);
      assert Shape(s');
      if todo != {} {
        assert EachOnce(sent + [pick], s.clients - (todo - {pick})) by { OnceMore(sent, s.clients - todo, pick); }
      } else {
        assert s.clients - todo == s.clients;
      }
    }
  }

  lemma OnceMore(s: seq<Socket>, c: set<Socket>, x: Socket)
    requires EachOnce(s, c) && x !in c
    ensures forall d :: d == c + {x} ==> EachOnce(s + [x], d)
  {
    forall i | 0 <= i < |s| ensures s[i] in c { assert s[i] in (set y | y in s); }
    assert (set y | y in s + [x]) == c + {x} by {
      forall y | y in c ensures y in s + [x] { assert y in (set z | z in s); }
    }
  }

  /** The steps by which the acceptor, or whoever posted an event, finishes its call. */
  lemma ReturnKeepsInv(s: State, t: nat, pick: Socket)
    requires Inv(s) && t < |s.progs| && (s.progs[t].Telling? || s.progs[t].Posting?)
    requires !EQ.InPut(s.eq.pcs[t]) && !EQ.InGet(s.eq.pcs[t])
    ensures Go(s, t, pick).Moved? && Inv(Go(s, t, pick).state)
  {
    hide LFQ.Live, LFQ.QOk, EQ.Inv, LFQ.SpscInv;
    assert ThOk(s.eq.pcs[t], s.progs[t]);
    var s' := Go(s, t, pick).state;
    OwnShape(s, t, s'.eq.pcs[t], s'.progs[t]);
    assert Shape(s');
  }

  lemma GoKeepsInv(s: State, t: nat, pick: Socket)
    requires Inv(s) && t < |s.progs|
    ensures !Go(s, t, pick).Fault?
    ensures Go(s, t, pick).Moved? ==> Inv(Go(s, t, pick).state)
  {
    hide LFQ.Live, LFQ.QOk, EQ.Inv, LFQ.SpscInv, Covered, EQ.Run, SocketsOk, CastsOk, Loop, Enlist, Fetch;
    assert ThOk(s.eq.pcs[t], s.progs[t]);
    if EQ.InPut(s.eq.pcs[t]) || EQ.InGet(s.eq.pcs[t]) {
      QueueStepKeepsInv(s, t, pick);
    } else {
      match s.progs[t]
      case Looping => LoopKeepsInv(s, t);
      case Fetching => FetchKeepsInv(s, t);
      case Casting(_, _) => CastKeepsInv(s, t, pick);
      case Queueing => EnlistKeepsInv(s, t);
      case Telling => ReturnKeepsInv(s, t, pick);
      case Posting(_) => ReturnKeepsInv(s, t, pick);
      case _ =>
    }
  }

  lemma AcceptKeepsInv(s: State, t: nat)
    requires Inv(s) && t < |s.progs| && s.progs[t].Accepting?
    ensures Act(s, t, Accept).Moved? && Inv(Act(s, t, Accept).state)
  {
    hide LFQ.Live, LFQ.QOk, EQ.Inv, Go;
    assert ThOk(s.eq.pcs[t], s.progs[t]);
    var s' := Act(s, t, Accept).state;
    assert EQ.At(s.eq, t, s.eq.pcs[t]) == s.eq;
    LFQ.TurnKeepsInv(s.incoming, LFQ.CallPush(|s.accepted|));
    OwnShape(s, t, s'.eq.pcs[t], s'.progs[t]);
    assert Shape(s');
    assert s'.accepted[..|s'.accepted| - 1] == s.accepted == s.accepted[..|s.accepted|];
  }

  lemma ActKeepsInv(s: State, t: nat, a: Action)
    requires Inv(s) && t < |s.progs|
    ensures !Act(s, t, a).Fault?
    ensures Act(s, t, a).Moved? ==> Inv(Act(s, t, a).state)
  {
    hide LFQ.Live, LFQ.QOk, EQ.Inv, Go, LFQ.SpscInv, LFQ.Turn;
    assert ThOk(s.eq.pcs[t], s.progs[t]);
    match a
    case Accept => if s.progs[t].Accepting? { AcceptKeepsInv(s, t); }
    case Post(e) =>
      if Act(s, t, a).Moved? {
        OwnShape(s, t, EQ.PutLock(e), Posting(e));
        assert Shape(Act(s, t, a).state);
      }
    case Step(pick) => GoKeepsInv(s, t, pick);
  }

  lemma {:induction false} PlayKeepsInv(s: State, schedule: seq<(nat, Action)>)
    requires Inv(s)
    ensures Play(s, schedule).Some? && Inv(Play(s, schedule).value)
    decreases |schedule|
  {
    hide SocketsOk, CastsOk, Covered, EQ.Inv, Act;
    if schedule != [] {
      if schedule[0].0 >= |s.progs| {
        PlayKeepsInv(s, schedule[1..]);
      } else {
        ActKeepsInv(s, schedule[0].0, schedule[0].1);
        var o := Act(s, schedule[0].0, schedule[0].1);
        PlayKeepsInv(if o.Moved? then o.state else s, schedule[1..]);
      }
    }
  }

  lemma InitInv(eventMax: nat, socketMax: nat, posters: nat)
    ensures Inv(Init(eventMax, socketMax, posters))
  {
    hide EQ.Inv, LFQ.Pos, LFQ.Live, LFQ.QOk, LFQ.Init;
    EQ.InitInv(CFG, Other, eventMax, 2 + posters);
    LFQ.InitOk<Socket>(0, socketMax);
    LFQ.InitOk(Other, eventMax);
    var s := Init(eventMax, socketMax, posters);
    assert Shape(s);
    assert SocketsOk(s);
    assert Covered(s);
  }

  /**
   * The hand-off over every run: nobody touches freed memory; sockets waiting and events about
   * them balance; the clients are the accepted sockets in the order of acceptance, none twice,
   * and without a gap as long as m_IncomingQueue turned none away, even if the event queue
   * turned events away; no event then finds the queue without a socket; and every broadcast
   * reached each client of its moment once.
   */
  lemma HandOff(eventMax: nat, socketMax: nat, posters: nat, schedule: seq<(nat, Action)>)
    ensures Play(Init(eventMax, socketMax, posters), schedule).Some?
    ensures var s := Play(Init(eventMax, socketMax, posters), schedule).value;
            && 2 <= |s.progs| == |s.eq.pcs|
            && |LFQ.Live(s.incoming.q)| + s.refused == QueuedAccepts(s) + Announcing(s) + Expecting(s) + s.missed + s.lost
            && s.missed <= s.refused
            && s.clients == (set x | x in s.inserted)
            && Rising(s.inserted, |s.accepted|)
            && (s.refused == 0 ==> s.inserted <= s.accepted)
            && (forall i :: 0 <= i < |s.casts| ==> EachOnce(s.casts[i].1, s.casts[i].0))
  {
    hide EQ.Inv, LFQ.Live, LFQ.QOk;
    InitInv(eventMax, socketMax, posters);
    PlayKeepsInv(Init(eventMax, socketMax, posters), schedule);
    var s := Play(Init(eventMax, socketMax, posters), schedule).value;
    assert s.inserted <= s.incoming.pushed;
    assert forall i :: 0 <= i < |s.inserted| ==> s.inserted[i] == s.incoming.pushed[i];
  }

  /**
   * Once nothing is on its way, and if m_IncomingQueue turned no socket away, the accepted
   * sockets that are no clients are as many as the events the event queue turned away.
   */
  lemma EveryoneServedIff(eventMax: nat, socketMax: nat, posters: nat, schedule: seq<(nat, Action)>)
    ensures Play(Init(eventMax, socketMax, posters), schedule).Some?
    ensures var s := Play(Init(eventMax, socketMax, posters), schedule).value;
            && 2 <= |s.progs| == |s.eq.pcs|
            && (s.refused == 0 && s.progs[ACCEPTOR].Accepting? && !s.progs[SERVER].Fetching?
                && QueuedAccepts(s) == 0 && Expecting(s) == 0
                ==> |s.accepted| == |s.inserted| + s.lost && (s.inserted == s.accepted <==> s.lost == 0))
  {
    hide EQ.Inv, LFQ.Live, LFQ.QOk;
    InitInv(eventMax, socketMax, posters);
    PlayKeepsInv(Init(eventMax, socketMax, posters), schedule);
  }
}
