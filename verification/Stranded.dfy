/**
 * When a client can be left waiting for ever: the event about its socket was turned away. Whether
 * that can happen is told by the bounds of the two queues and by who else posts.
 */
module Stranded {
  import opened Basics
  import LFQ = LockFreeQueue
  import EQ = EventQueue
  import opened ServingThread

  // ---------------------------------------------------------------- when it cannot

  /** As long as m_IncomingQueue took every socket: every event is about a socket, and the Put in
      progress will find room. */
  ghost predicate Roomy(s: State)
  {
    && Inv(s) && s.incoming.q.maxSize <= s.eq.q.maxSize
    && (forall t :: 0 <= t < |s.progs| ==> !s.progs[t].Away? && !s.progs[t].Posting?)
    && (s.refused == 0 ==>
          && s.lost == 0
          && (forall i :: 0 <= i < |s.eq.pushed| ==> s.eq.pushed[i] == AcceptIncoming)
          && HasRoom(s.eq.q, s.eq.pcs[ACCEPTOR]))
  }

  ghost predicate HasRoom(q: LFQ.Lfq<Event>, pc: EQ.PC<Event>)
  {
    match pc
    case PutPush(_, WErase(last)) => last.At? && q.nextId - last.id <= q.maxSize
    case PutPush(_, WCheck) => |q.nodes| <= q.maxSize
    case PutUnlock(_, ok) => ok
    case PutDone(ok) => ok
    case _ => true
  }

  /** While an event about a socket is on its way, its socket is one more than the queued events. */
  lemma RoomLeft(s: State)
    requires Roomy(s) && s.refused == 0 && Announcing(s) == 1
    ensures |LFQ.Live(s.eq.q)| + 1 <= s.eq.q.maxSize
  {
    hide LFQ.Live, LFQ.QOk, EQ.Inv;
    EventsAreAccepts(s);
    BoundOk(s.incoming.q);
  }

  lemma BoundOk<T>(q: LFQ.Lfq<T>)
    requires LFQ.QOk(q)
    ensures |LFQ.Live(q)| <= q.maxSize
  {
    LFQ.LiveOk(q);
  }

  lemma EventsAreAccepts(s: State)
    requires Roomy(s) && s.refused == 0
    ensures QueuedAccepts(s) == |LFQ.Live(s.eq.q)|
  {
    hide LFQ.Live, LFQ.QOk;
    assert s.eq.pushed == s.eq.popped + LFQ.Live(s.eq.q);
    forall i | 0 <= i < |LFQ.Live(s.eq.q)| ensures LFQ.Live(s.eq.q)[i] == AcceptIncoming {
      assert LFQ.Live(s.eq.q)[i] == s.eq.pushed[|s.eq.popped| + i];
    }
    AllTheSame(LFQ.Live(s.eq.q), AcceptIncoming);
  }

  /** Only the acceptor is ever inside Put. */
  lemma OnlyAcceptorPuts(s: State, t: nat)
    requires Roomy(s) && t < |s.progs| && t != ACCEPTOR
    ensures !EQ.InPut(s.eq.pcs[t]) && !s.eq.pcs[t].PutDone?
  {
    hide EQ.Inv;
    assert ThOk(s.eq.pcs[t], s.progs[t]);
  }

  lemma RunKeepsRoom(s: State, t: nat)
    requires Roomy(s) && s.refused == 0 && t < |s.progs| && EQ.Run(CFG, s.eq, t).Moved?
    ensures var eq' := EQ.Run(CFG, s.eq, t).state;
            ACCEPTOR < |eq'.pcs| && HasRoom(eq'.q, eq'.pcs[ACCEPTOR]) && eq'.q.maxSize == s.eq.q.maxSize
            && !EQ.EffectOf(s.eq, t).Reject?
  {
    hide LFQ.Live, LFQ.Pos, LFQ.Values, Sum;
    assert EQ.Inv(CFG, s.eq) && EQ.PcOk(s.eq.q, s.eq.mEvent, s.eq.pcs[t]);
    EQ.RunKeepsSize(CFG, s.eq, t);
    assert ThOk(s.eq.pcs[ACCEPTOR], s.progs[ACCEPTOR]);
    LFQ.LiveOk(s.eq.q);
    if t != ACCEPTOR { OnlyAcceptorPuts(s, t); }
    if s.eq.pcs[t].PutPush? {
      LFQ.WriterStep(s.eq.q, s.eq.pcs[t].w, s.eq.mEvent, LFQ.RBegin);
      if s.eq.pcs[t].w.WBegin? { RoomLeft(s); }
    } else if s.eq.pcs[t].GetPop? {
      LFQ.ReaderStep(s.eq.q, s.eq.pcs[t].r, LFQ.WBegin);
    }
  }

  lemma QueueKeepsRoom(s: State, t: nat, pick: Socket)
    requires Roomy(s) && t < |s.progs| && (EQ.InPut(s.eq.pcs[t]) || EQ.InGet(s.eq.pcs[t]))
    requires Go(s, t, pick).Moved? && Inv(Go(s, t, pick).state)
    ensures Roomy(Go(s, t, pick).state)
  {
    hide EQ.Inv, LFQ.Live, LFQ.QOk, EQ.Run, HasRoom;
    EQ.StepOfCall(CFG, s.eq, t);
    EQ.RunKeepsSize(CFG, s.eq, t);
    assert ThOk(s.eq.pcs[t], s.progs[t]);
    if s.refused == 0 {
      RunKeepsRoom(s, t);
      assert t != ACCEPTOR ==> EQ.Offered(s.eq.pcs[t]) == None by { if t != ACCEPTOR { OnlyAcceptorPuts(s, t); } }
    }
    hide Inv;
  }

  /** What the other steps leave alone. */
  ghost predicate Framed(s: State, t: nat, s': State)
    requires t < |s.progs| == |s.eq.pcs|
  {
    && |s'.progs| == |s'.eq.pcs| == |s.progs| && s'.progs == s.progs[t := s'.progs[t]] && s'.eq == EQ.At(s.eq, t, s'.eq.pcs[t])
    && s'.incoming.q.maxSize == s.incoming.q.maxSize && s.refused <= s'.refused
    && s'.lost == s.lost + (if s.progs[t].Telling? && s.eq.pcs[t] == EQ.PutDone(false) then 1 else 0)
    && (s'.eq.pcs[t] == s.eq.pcs[t] || s'.eq.pcs[t].Idle? || s'.eq.pcs[t].PutLock? || s'.eq.pcs[t].GetTake?)
    && (s'.progs[t].Away? || s'.progs[t].Posting? ==> s.progs[t].Away? || s.progs[t].Posting?)
  }

  lemma TurnKeepsSize<T>(i: LFQ.Spsc<T>, m: LFQ.Move<T>)
    ensures LFQ.Turn(i, m).Some? ==> LFQ.Turn(i, m).value.q.maxSize == i.q.maxSize
  {
  }

  lemma Same<T>(s: EQ.State<T>, t: nat)
    requires t < |s.pcs|
    ensures EQ.At(s, t, s.pcs[t]) == s
  {
  }

  lemma LoopFrame(s: State, t: nat)
    requires t < |s.progs| == |s.eq.pcs| && s.progs[t].Looping? && Loop(s, t).Moved?
    ensures Framed(s, t, Loop(s, t).state)
  {
    hide LFQ.Turn;
    TurnKeepsSize(s.incoming, LFQ.CallPop);
  }

  lemma FetchFrame(s: State, t: nat)
    requires t < |s.progs| == |s.eq.pcs| && s.progs[t].Fetching? && Fetch(s, t).Moved?
    ensures Framed(s, t, Fetch(s, t).state)
  {
    hide LFQ.Turn;
    TurnKeepsSize(s.incoming, LFQ.Read);
    Same(s.eq, t);
  }

  lemma EnlistFrame(s: State, t: nat)
    requires t < |s.progs| == |s.eq.pcs| && s.progs[t].Queueing? && Enlist(s, t).Moved?
    ensures Framed(s, t, Enlist(s, t).state)
  {
    hide LFQ.Turn;
    TurnKeepsSize(s.incoming, LFQ.Write);
    Same(s.eq, t);
  }

  lemma OwnFrame(s: State, t: nat, a: Action)
    requires t < |s.progs| == |s.eq.pcs| && Act(s, t, a).Moved? && !a.Post?
    requires a.Step? ==> !EQ.InPut(s.eq.pcs[t]) && !EQ.InGet(s.eq.pcs[t])
    ensures Framed(s, t, Act(s, t, a).state)
  {
    hide LFQ.Turn, Loop, Fetch, Enlist, EQ.Run;
    TurnKeepsSize(s.incoming, LFQ.CallPush(|s.accepted|));
    Same(s.eq, t);
    if a.Step? {
      match s.progs[t]
      case Looping => LoopFrame(s, t);
      case Fetching => FetchFrame(s, t);
      case Queueing => EnlistFrame(s, t);
      case _ =>
    }
  }

  lemma ActKeepsRoom(s: State, t: nat, a: Action)
    requires Roomy(s) && t < |s.progs|
    ensures !Act(s, t, a).Fault?
    ensures Act(s, t, a).Moved? ==> Roomy(Act(s, t, a).state)
  {
    ActKeepsInv(s, t, a);
    if Act(s, t, a).Moved? {
      if a.Step? && (EQ.InPut(s.eq.pcs[t]) || EQ.InGet(s.eq.pcs[t])) {
        QueueKeepsRoom(s, t, a.pick);
      } else {
        assert !a.Post?;
        OwnFrame(s, t, a);
        FramedKeepsRoom(s, t, Act(s, t, a).state);
      }
    }
  }

  lemma FramedKeepsRoom(s: State, t: nat, s': State)
    requires Roomy(s) && t < |s.progs| && Framed(s, t, s') && Inv(s')
    ensures Roomy(s')
  {
    assert s.progs[t].Telling? ==> t == ACCEPTOR;
    hide Inv, EQ.Inv;
  }

  lemma {:induction false} PlayKeepsRoom(s: State, schedule: seq<(nat, Action)>)
    requires Roomy(s)
    ensures Play(s, schedule).Some? && Roomy(Play(s, schedule).value)
    decreases |schedule|
  {
    hide Act, SocketsOk, CastsOk, Covered, EQ.Inv, HasRoom;
    if schedule != [] {
      if schedule[0].0 >= |s.progs| {
        PlayKeepsRoom(s, schedule[1..]);
      } else {
        ActKeepsRoom(s, schedule[0].0, schedule[0].1);
        var o := Act(s, schedule[0].0, schedule[0].1);
        PlayKeepsRoom(if o.Moved? then o.state else s, schedule[1..]);
      }
    }
  }

  // ---------------------------------------------------------------- runs of one thread at a time

  lemma {:induction false} PlayAppend(s: State, a: seq<(nat, Action)>, b: seq<(nat, Action)>)
    requires Inv(s)
    ensures Play(s, a).Some? && Inv(Play(s, a).value) && Play(s, a + b) == Play(Play(s, a).value, b)
    decreases |a|
  {
    hide Act, SocketsOk, CastsOk, Covered, EQ.Inv;
    if a == [] {
      assert a + b == b;
    } else {
      assert (a + b)[1..] == a[1..] + b && (a + b)[0] == a[0];
      var (t, x) := a[0];
      if t < |s.progs| { ActKeepsInv(s, t, x); }
      PlayAppend(if t < |s.progs| && Act(s, t, x).Moved? then Act(s, t, x).state else s, a[1..], b);
    }
  }

  /** A run of one action that is not held up. */
  lemma PlayOne(s: State, t: nat, a: Action)
    requires Inv(s) && t < |s.progs| && Act(s, t, a).Moved?
    ensures Inv(Act(s, t, a).state) && Play(s, [(t, a)]) == Some(Act(s, t, a).state)
  {
    ActKeepsInv(s, t, a);
    hide Act, SocketsOk, CastsOk, Covered, EQ.Inv;
    assert [(t, a)][1..] == [];
  }

  /** Nobody but perhaps t is inside a call, and no consumed nodes are stored in either queue. */
  ghost predicate Quiet(s: State, t: nat)
  {
    && Inv(s) && t < |s.progs| && t != SERVER && EQ.Dead(s.eq.q) == 0 && EQ.Dead(s.incoming.q) == 0
    && s.progs[SERVER].Looping? && (forall u :: 0 <= u < |s.progs| && u != t ==> s.eq.pcs[u].Idle?)
  }

  /** No broadcast is waiting. */
  ghost predicate Plain(es: seq<Event>)
  {
    forall i :: 0 <= i < |es| ==> es[i] != Broadcast
  }

  /** What a finished Put of event e makes of the event queue; a full one turns the event away. */
  ghost predicate PutResult(s: EQ.State<Event>, e: Event, f: EQ.State<Event>, ok: bool)
  {
    if |LFQ.Live(s.q)| < s.q.maxSize then ok && LFQ.Live(f.q) == LFQ.Live(s.q) + [e]
    else !ok && LFQ.Live(f.q) == LFQ.Live(s.q)
  }

  /** A Put that nobody disturbs runs to its end. */
  lemma {:induction false} PutThrough(s: State, t: nat) returns (steps: seq<(nat, Action)>)
    requires Quiet(s, t) && EQ.InPut(s.eq.pcs[t])
    ensures Play(s, steps).Some?
    ensures var f := Play(s, steps).value;
            && Quiet(f, t) && f == s.(eq := f.eq) && f.eq.q.maxSize == s.eq.q.maxSize
            && f.eq.pcs[t].PutDone? && f.eq.pcs == s.eq.pcs[t := f.eq.pcs[t]]
            && match EQ.Offered(s.eq.pcs[t])
               case Some(e) => PutResult(s.eq, e, f.eq, f.eq.pcs[t].ok)
               case None => LFQ.Live(f.eq.q) == LFQ.Live(s.eq.q) && (f.eq.pcs[t].ok <==> EQ.Accepted(s.eq.pcs[t]))
    decreases EQ.Rank(s.eq.pcs[t])
  {
    hide EQ.Inv, LFQ.Live, LFQ.QOk, EQ.Run, EQ.Dead, SocketsOk, CastsOk, Covered;
    assert forall u :: 0 <= u < |s.progs| && u != t ==> !EQ.InPut(s.eq.pcs[u]);
    EQ.PutAlone(CFG, s.eq, t);
    var s' := s.(eq := EQ.Run(CFG, s.eq, t).state);
    assert Act(s, t, Step(0)) == Moved(s');
    PlayOne(s, t, Step(0));
    assert s'.eq.pcs == s.eq.pcs[t := s'.eq.pcs[t]];
    var rest := [];
    if EQ.InPut(s'.eq.pcs[t]) { rest := PutThrough(s', t); }
    PlayAppend(s, [(t, Step(0))], rest);
    steps := [(t, Step(0))] + rest;
  }

  /** An access of a push that nothing disturbs, into a queue with room. */
  lemma WriteAlone(i: LFQ.Spsc<Socket>)
    requires LFQ.SpscInv(i) && !i.w.WDone? && EQ.Dead(i.q) == 0 && (i.w.WTail? || |LFQ.Live(i.q)| < i.q.maxSize)
    ensures LFQ.Turn(i, LFQ.Write).Some?
    ensures var i' := LFQ.Turn(i, LFQ.Write).value;
            && EQ.Dead(i'.q) == 0 && EQ.WriterRank(i'.w) < EQ.WriterRank(i.w) && i'.q.maxSize == i.q.maxSize
            && (i'.w.WDone? ==> i'.w.ok) && (!i'.w.WDone? && !i'.w.WTail? ==> |LFQ.Live(i'.q)| < i'.q.maxSize)
            && (i'.w.WDone? ==> i.w.WTail?)
            && |LFQ.Live(i'.q)| == |LFQ.Live(i.q)| + (if i.w.WHook? then 1 else 0)
            && (i'.w.WTail? <==> i.w.WHook?)
  {
    hide LFQ.Live, LFQ.Pos, LFQ.Values;
    LFQ.LiveOk(i.q);
    LFQ.WriterStep(i.q, i.w, i.arg, i.r);
    LFQ.WriterLive(i.q, i.w, i.arg);
    EQ.PushDecreases(i.q, i.w, i.arg);
  }

  /** The push of OnAccept, undisturbed and with room, up to the Put of the event. */
  lemma {:induction false} EnlistThrough(s: State) returns (steps: seq<(nat, Action)>)
    requires Quiet(s, ACCEPTOR) && s.progs[ACCEPTOR].Queueing?
    requires s.incoming.w.WTail? || |LFQ.Live(s.incoming.q)| < s.incoming.q.maxSize
    ensures Play(s, steps).Some?
    ensures var f := Play(s, steps).value;
            && Quiet(f, ACCEPTOR) && f.progs == s.progs[ACCEPTOR := Telling]
            && f.eq == EQ.At(s.eq, ACCEPTOR, EQ.PutLock(AcceptIncoming))
            && f.refused == s.refused && f.lost == s.lost && f.accepted == s.accepted && f.incoming.q.maxSize == s.incoming.q.maxSize
            && |LFQ.Live(f.incoming.q)| == |LFQ.Live(s.incoming.q)| + (if s.incoming.w.WTail? then 0 else 1)
    decreases EQ.WriterRank(s.incoming.w)
  {
    hide EQ.Inv, LFQ.Live, LFQ.QOk, EQ.Run, EQ.Dead, LFQ.Turn, CastsOk, Covered;
    assert ThOk(s.eq.pcs[ACCEPTOR], s.progs[ACCEPTOR]);
    WriteAlone(s.incoming);
    var s' := Enlist(s, ACCEPTOR).state;
    assert Act(s, ACCEPTOR, Step(0)) == Moved(s');
    PlayOne(s, ACCEPTOR, Step(0));
    var rest := [];
    if !s'.incoming.w.WDone? { rest := EnlistThrough(s'); }
    PlayAppend(s, [(ACCEPTOR, Step(0))], rest);
    steps := [(ACCEPTOR, Step(0))] + rest;
  }

  /** A socket is accepted while nobody else is about. */
  lemma AcceptOne(s: State) returns (steps: seq<(nat, Action)>)
    requires Quiet(s, ACCEPTOR) && s.progs[ACCEPTOR].Accepting? && |LFQ.Live(s.incoming.q)| < s.incoming.q.maxSize
    ensures Play(s, steps).Some?
    ensures var f := Play(s, steps).value;
            && Quiet(f, ACCEPTOR) && f.progs == s.progs && f.refused == s.refused
            && f.incoming.q.maxSize == s.incoming.q.maxSize && |LFQ.Live(f.incoming.q)| == |LFQ.Live(s.incoming.q)| + 1
            && f.eq.q.maxSize == s.eq.q.maxSize
            && if |LFQ.Live(s.eq.q)| < s.eq.q.maxSize then LFQ.Live(f.eq.q) == LFQ.Live(s.eq.q) + [AcceptIncoming] && f.lost == s.lost
               else LFQ.Live(f.eq.q) == LFQ.Live(s.eq.q) && f.lost == s.lost + 1
  {
    hide EQ.Inv, LFQ.Live, LFQ.QOk, EQ.Run, EQ.Dead, CastsOk, Covered;
    assert ThOk(s.eq.pcs[ACCEPTOR], s.progs[ACCEPTOR]);
    PlayOne(s, ACCEPTOR, Accept);
    var s1 := Act(s, ACCEPTOR, Accept).state;
    assert s1.incoming.q == s.incoming.q && s1.incoming.w.WBegin?;
    assert Quiet(s1, ACCEPTOR);
    hide LFQ.SpscInv, SocketsOk;
    var push := EnlistThrough(s1);
    var s2 := Play(s1, push).value;
    var put := PutThrough(s2, ACCEPTOR);
    var s3 := Play(s2, put).value;
    PlayOne(s3, ACCEPTOR, Step(0));
    var s4 := Act(s3, ACCEPTOR, Step(0)).state;
    assert s4.progs == s.progs;
    PlayAppend(s2, put, [(ACCEPTOR, Step(0))]);
    PlayAppend(s1, push, put + [(ACCEPTOR, Step(0))]);
    PlayAppend(s, [(ACCEPTOR, Accept)], push + (put + [(ACCEPTOR, Step(0))]));
    steps := [(ACCEPTOR, Accept)] + (push + (put + [(ACCEPTOR, Step(0))]));
  }

  /** Somebody else posts an event while nobody is inside a call. */
  lemma PostOne(s: State, o: nat) returns (steps: seq<(nat, Action)>)
    requires Quiet(s, o) && s.progs[o].Away? && s.eq.pcs[o].Idle? && |LFQ.Live(s.eq.q)| < s.eq.q.maxSize
    ensures Play(s, steps).Some?
    ensures var f := Play(s, steps).value;
            && Quiet(f, o) && f == s.(eq := f.eq) && f.eq.pcs == s.eq.pcs && f.eq.q.maxSize == s.eq.q.maxSize
            && LFQ.Live(f.eq.q) == LFQ.Live(s.eq.q) + [Other]
  {
    hide EQ.Inv, LFQ.Live, LFQ.QOk, EQ.Run, EQ.Dead, CastsOk, Covered, SocketsOk;
    PlayOne(s, o, Post(Other));
    var s1 := Act(s, o, Post(Other)).state;
    var put := PutThrough(s1, o);
    var s2 := Play(s1, put).value;
    PlayOne(s2, o, Step(0));
    var s3 := Act(s2, o, Step(0)).state;
    assert s3.progs == s.progs && s3.eq.pcs == s.eq.pcs;
    PlayAppend(s1, put, [(o, Step(0))]);
    PlayAppend(s, [(o, Post(Other))], put + [(o, Step(0))]);
    steps := [(o, Post(Other))] + (put + [(o, Step(0))]);
  }

  /** Sockets are accepted until the event queue is full of their events. */
  lemma {:induction false} FillByAccepts(s: State) returns (steps: seq<(nat, Action)>)
    requires Quiet(s, ACCEPTOR) && s.progs[ACCEPTOR].Accepting? && Plain(LFQ.Live(s.eq.q))
    requires |LFQ.Live(s.incoming.q)| == |LFQ.Live(s.eq.q)| && s.eq.q.maxSize < s.incoming.q.maxSize
    ensures Play(s, steps).Some?
    ensures var f := Play(s, steps).value;
            && Quiet(f, ACCEPTOR) && f.progs == s.progs && f.refused == s.refused && f.lost == s.lost && Plain(LFQ.Live(f.eq.q))
            && |LFQ.Live(f.incoming.q)| < f.incoming.q.maxSize && f.eq.q.maxSize <= |LFQ.Live(f.eq.q)|
    decreases s.eq.q.maxSize - |LFQ.Live(s.eq.q)|
  {
    QuietFits(s, ACCEPTOR);
    hide LFQ.Live, Quiet;
    if s.eq.q.maxSize <= |LFQ.Live(s.eq.q)| {
      steps := [];
    } else {
      var one := AcceptOne(s);
      var rest := FillByAccepts(Play(s, one).value);
      PlayAppend(s, one, rest);
      steps := one + rest;
    }
  }

  /** Somebody else fills the event queue. */
  lemma {:induction false} FillByPosts(s: State, o: nat) returns (steps: seq<(nat, Action)>)
    requires Quiet(s, o) && s.progs[o].Away? && s.eq.pcs[o].Idle? && Plain(LFQ.Live(s.eq.q))
    ensures Play(s, steps).Some?
    ensures var f := Play(s, steps).value;
            && Quiet(f, o) && f == s.(eq := f.eq) && f.eq.pcs == s.eq.pcs && Plain(LFQ.Live(f.eq.q))
            && f.eq.q.maxSize <= |LFQ.Live(f.eq.q)|
    decreases s.eq.q.maxSize - |LFQ.Live(s.eq.q)|
  {
    QuietFits(s, o);
    hide LFQ.Live, Quiet;
    if s.eq.q.maxSize <= |LFQ.Live(s.eq.q)| {
      steps := [];
    } else {
      var one := PostOne(s, o);
      var rest := FillByPosts(Play(s, one).value, o);
      PlayAppend(s, one, rest);
      steps := one + rest;
    }
  }

  lemma QuietFits(s: State, t: nat)
    requires Quiet(s, t)
    ensures Inv(s) && t < |s.progs|
    ensures |LFQ.Live(s.eq.q)| <= s.eq.q.maxSize
  {
    BoundOk(s.eq.q);
  }

  // ---------------------------------------------------------------- the server alone

  /** Only the server is at work, and no broadcast is waiting or under way. */
  ghost predicate Draining(s: State)
  {
    && Inv(s) && s.progs[ACCEPTOR].Accepting? && Plain(LFQ.Live(s.eq.q)) && !s.progs[SERVER].Casting?
    && EQ.Carried(s.eq.pcs[SERVER]) != Some(Broadcast)
    && forall u :: 0 <= u < |s.progs| && u != SERVER ==> s.eq.pcs[u].Idle?
  }

  function ServerRank(s: State): int
    requires SERVER < |s.progs| == |s.eq.pcs|
  {
    (if EQ.Carried(s.eq.pcs[SERVER]).Some? then 20 else 0)
    + match s.progs[SERVER]
      case Looping => if s.eq.pcs[SERVER].Idle? then 10 else 0
      case Fetching => 11 + EQ.ReaderRank(s.incoming.r)
      case _ => 0
  }

  /** What is left to do until the event queue is empty. */
  function Work(s: State): int
    requires SERVER < |s.progs| == |s.eq.pcs|
  {
    EQ.Dead(s.eq.q) + EQ.Rank(s.eq.pcs[SERVER]) + 40 * |LFQ.Live(s.eq.q)| + ServerRank(s)
  }

  lemma WorkNotNegative(s: State)
    requires Inv(s)
    ensures 0 <= Work(s)
  {
    hide LFQ.Live;
  }

  lemma QueueWorks(s: State)
    requires Draining(s) && (EQ.InPut(s.eq.pcs[SERVER]) || EQ.InGet(s.eq.pcs[SERVER])) && EQ.Run(CFG, s.eq, SERVER).Moved?
    ensures var s' := s.(eq := EQ.Run(CFG, s.eq, SERVER).state);
            Act(s, SERVER, Step(0)) == Moved(s') && Draining(s') && Work(s') < Work(s)
  {
    hide EQ.Inv, LFQ.Live, LFQ.QOk, EQ.Run, EQ.Dead, EQ.Rank, SocketsOk, CastsOk, Covered;
    assert ThOk(s.eq.pcs[SERVER], s.progs[SERVER]);
    var s' := s.(eq := EQ.Run(CFG, s.eq, SERVER).state);
    PlayOne(s, SERVER, Step(0));
    EQ.StepOfCall(CFG, s.eq, SERVER);
    EQ.RunDecreases(CFG, s.eq, SERVER);
    match EQ.EffectOf(s.eq, SERVER)
    case Dequeue(v) => assert LFQ.Live(s.eq.q)[0] == v; assert forall i :: 0 <= i < |LFQ.Live(s'.eq.q)| ==> LFQ.Live(s'.eq.q)[i] == LFQ.Live(s.eq.q)[i + 1];
    case _ =>
  }

  lemma OwnWorks(s: State)
    requires Draining(s) && !EQ.InPut(s.eq.pcs[SERVER]) && !EQ.InGet(s.eq.pcs[SERVER])
    ensures Act(s, SERVER, Step(0)).Moved?
    ensures var s' := Act(s, SERVER, Step(0)).state;
            && Draining(s') && Work(s') < Work(s)
            && s'.refused == s.refused && s'.lost == s.lost && s'.accepted == s.accepted
  {
    hide EQ.Inv, LFQ.Live, LFQ.QOk, EQ.Run, EQ.Dead, CastsOk, Covered;
    assert ThOk(s.eq.pcs[SERVER], s.progs[SERVER]);
    if s.progs[SERVER].Looping? { LoopKeepsInv(s, SERVER); } else { FetchKeepsInv(s, SERVER); EQ.PopDecreases(s.incoming.q, s.incoming.r); }
    PlayOne(s, SERVER, Step(0));
    hide LFQ.SpscInv;
  }

  lemma ServerStuck(s: State)
    requires Draining(s) && (EQ.InPut(s.eq.pcs[SERVER]) || EQ.InGet(s.eq.pcs[SERVER])) && !EQ.Run(CFG, s.eq, SERVER).Moved?
    ensures LFQ.Live(s.eq.q) == [] && s.progs[SERVER].Looping? && s.eq.pcs[SERVER].GetTake?
  {
    hide EQ.Inv, LFQ.Live, LFQ.QOk, SocketsOk, CastsOk, Covered;
    assert ThOk(s.eq.pcs[SERVER], s.progs[SERVER]);
    forall u | 0 <= u < |s.eq.pcs| ensures !EQ.Run(CFG, s.eq, u).Moved? {}
    EQ.StuckMeansEmpty(CFG, s.eq);
  }

  /** The server alone gets through all events. */
  lemma {:induction false} Drain(s: State) returns (steps: seq<(nat, Action)>)
    requires Draining(s)
    ensures Play(s, steps).Some?
    ensures var f := Play(s, steps).value;
            && Draining(f) && f.refused == s.refused && f.lost == s.lost
            && LFQ.Live(f.eq.q) == [] && f.progs[SERVER].Looping? && f.eq.pcs[SERVER].GetTake?
    decreases Work(s)
  {
    WorkNotNegative(s);
    var calling := EQ.InPut(s.eq.pcs[SERVER]) || EQ.InGet(s.eq.pcs[SERVER]);
    if calling && !EQ.Run(CFG, s.eq, SERVER).Moved? {
      ServerStuck(s);
      steps := [];
    } else {
      if calling { QueueWorks(s); } else { OwnWorks(s); }
      PlayOne(s, SERVER, Step(0));
      var s' := Act(s, SERVER, Step(0)).state;
      hide Draining, Work, Act, Inv, EQ.Run, EQ.Inv, LFQ.Live;
      var rest := Drain(s');
      assert Inv(s);
      PlayAppend(s, [(SERVER, Step(0))], rest);
      steps := [(SERVER, Step(0))] + rest;
    }
  }

  // ---------------------------------------------------------------- the condition

  /** Nothing is on its way any more. */
  ghost predicate AtRest(s: State)
  {
    && 2 <= |s.progs| == |s.eq.pcs| && s.progs[ACCEPTOR].Accepting? && s.progs[SERVER].Looping?
    && QueuedAccepts(s) == 0 && Expecting(s) == 0
  }

  /** m_IncomingQueue takes every socket it is offered, and the event queue's bound or the other
      posters let an event about one be turned away. */
  predicate CanStrand(eventMax: nat, socketMax: nat, posters: nat)
  {
    1 <= socketMax && (eventMax < socketMax || 1 <= posters)
  }

  lemma ReadyToDrain(s: State)
    requires Quiet(s, ACCEPTOR) && s.progs[ACCEPTOR].Accepting? && s.eq.pcs[SERVER].Idle? && Plain(LFQ.Live(s.eq.q))
    ensures Draining(s)
  {
    hide EQ.Inv, LFQ.Live, SocketsOk, CastsOk, Covered;
    assert ThOk(s.eq.pcs[ACCEPTOR], s.progs[ACCEPTOR]);
  }

  /** The event queue is filled while sockets still fit theirs. */
  lemma FullQueue(s: State) returns (fill: seq<(nat, Action)>)
    requires Quiet(s, ACCEPTOR) && s.progs[ACCEPTOR].Accepting? && s.eq.pcs[SERVER].Idle? && s.refused == 0
    requires LFQ.Live(s.eq.q) == [] && LFQ.Live(s.incoming.q) == [] && 1 <= s.incoming.q.maxSize
    requires s.eq.q.maxSize < s.incoming.q.maxSize || (2 < |s.progs| && s.progs[2].Away?)
    ensures Play(s, fill).Some?
    ensures var f := Play(s, fill).value;
            && Quiet(f, ACCEPTOR) && f.progs[ACCEPTOR].Accepting? && f.eq.pcs[SERVER].Idle? && f.refused == 0
            && Plain(LFQ.Live(f.eq.q)) && |LFQ.Live(f.incoming.q)| < f.incoming.q.maxSize && f.eq.q.maxSize <= |LFQ.Live(f.eq.q)|
  {
    hide EQ.Inv, LFQ.Live, LFQ.QOk, SocketsOk, CastsOk, Covered, EQ.Dead;
    assert ThOk(s.eq.pcs[ACCEPTOR], s.progs[ACCEPTOR]);
    if s.eq.q.maxSize < s.incoming.q.maxSize {
      fill := FillByAccepts(s);
    } else {
      assert ThOk(s.eq.pcs[2], s.progs[2]);
      fill := FillByPosts(s, 2);
    }
  }

  /** Then some run comes to rest with a client accepted, its socket taken, and never served. */
  lemma StrandingRun(eventMax: nat, socketMax: nat, posters: nat) returns (schedule: seq<(nat, Action)>)
    requires CanStrand(eventMax, socketMax, posters)
    ensures Play(Init(eventMax, socketMax, posters), schedule).Some?
    ensures var f := Play(Init(eventMax, socketMax, posters), schedule).value;
            AtRest(f) && f.refused == 0 && f.lost > 0 && |f.inserted| < |f.accepted|
  {
    var s := Init(eventMax, socketMax, posters);
    InitInv(eventMax, socketMax, posters);
    LFQ.InitOk<Event>(Other, eventMax);
    LFQ.InitOk<Socket>(0, socketMax);
    assert Quiet(s, ACCEPTOR);
    var fill := FullQueue(s);
    var s1 := Play(s, fill).value;
    var lose := AcceptOne(s1);
    var s2 := Play(s1, lose).value;
    assert Draining(s2) by { ReadyToDrain(s2); }
    var drain := Drain(s2);
    PlayAppend(s1, lose, drain);
    PlayAppend(s, fill, lose + drain);
    schedule := fill + (lose + drain);
    var f := Play(s, schedule).value;
    assert AtRest(f);
    EveryoneServedIff(eventMax, socketMax, posters, schedule);
  }

  /** In no run in which every socket was taken is the event about one turned away. */
  ghost predicate NeverStrands(eventMax: nat, socketMax: nat, posters: nat)
  {
    forall schedule: seq<(nat, Action)> ::
      var f := Play(Init(eventMax, socketMax, posters), schedule); f.Some? && (f.value.refused == 0 ==> f.value.lost == 0)
  }

  /**
   * Whatever the interleaving, no event about a socket that was taken is ever turned away, if and
   * only if m_IncomingQueue holds no more sockets than the event queue events and nobody but the
   * acceptor posts (or m_IncomingQueue holds none at all). Otherwise some run comes to rest with
   * an accepted client that is never served.
   */
  lemma NeverStrandsIff(eventMax: nat, socketMax: nat, posters: nat)
    ensures NeverStrands(eventMax, socketMax, posters) <==> !CanStrand(eventMax, socketMax, posters)
  {
    if CanStrand(eventMax, socketMax, posters) {
      var schedule := StrandingRun(eventMax, socketMax, posters);
    } else {
      forall schedule: seq<(nat, Action)>
        ensures var f := Play(Init(eventMax, socketMax, posters), schedule); f.Some? && (f.value.refused == 0 ==> f.value.lost == 0)
      {
        InitInv(eventMax, socketMax, posters);
        if socketMax == 0 {
          NothingTaken(Init(eventMax, 0, posters), schedule);
        } else {
          assert Roomy(Init(eventMax, socketMax, posters));
          PlayKeepsRoom(Init(eventMax, socketMax, posters), schedule);
        }
      }
    }
  }

  /** A queue for no socket turns away the first. */
  ghost predicate Taking(s: State)
  {
    && Inv(s) && s.incoming.q.maxSize == 0
    && (s.refused == 0 ==> s.lost == 0 && !s.progs[ACCEPTOR].Telling? && !s.incoming.w.WHook? && !s.incoming.w.WTail?)
  }

  lemma ActKeepsTaking(s: State, t: nat, a: Action)
    requires Taking(s) && t < |s.progs|
    ensures !Act(s, t, a).Fault?
    ensures Act(s, t, a).Moved? ==> Taking(Act(s, t, a).state)
  {
    ActKeepsInv(s, t, a);
    if Act(s, t, a).Moved? {
      assert s.progs[t].Telling? || s.progs[t].Queueing? ==> t == ACCEPTOR;
      if a.Post? || (a.Step? && (EQ.InPut(s.eq.pcs[t]) || EQ.InGet(s.eq.pcs[t]))) {
        OtherFrame(s, t, a);
      } else {
        OwnFrame(s, t, a);
        if s.refused == 0 { NeverHooks(s, t, a); }
      }
      hide Act, Inv;
    }
  }

  lemma OtherFrame(s: State, t: nat, a: Action)
    requires t < |s.progs| == |s.eq.pcs| && Act(s, t, a).Moved?
    requires a.Post? || (a.Step? && (EQ.InPut(s.eq.pcs[t]) || EQ.InGet(s.eq.pcs[t])))
    ensures var s' := Act(s, t, a).state;
            && s' == s.(eq := s'.eq, progs := s'.progs) && |s'.progs| == |s.progs|
            && (forall u :: 0 <= u < |s.progs| && u != t ==> s'.progs[u] == s.progs[u])
            && (s'.progs[t] == s.progs[t] || s'.progs[t].Posting?)
  {
    hide EQ.Run;
  }

  lemma NeverHooks(s: State, t: nat, a: Action)
    requires Taking(s) && t < |s.progs| && Act(s, t, a).Moved? && !a.Post? && s.refused == 0
    requires a.Step? ==> !EQ.InPut(s.eq.pcs[t]) && !EQ.InGet(s.eq.pcs[t])
    ensures var s' := Act(s, t, a).state;
            s'.refused == 0 ==> ACCEPTOR < |s'.progs| && !s'.progs[ACCEPTOR].Telling? && !s'.incoming.w.WHook? && !s'.incoming.w.WTail?
  {
  }

  lemma {:induction false} NothingTaken(s: State, schedule: seq<(nat, Action)>)
    requires Taking(s)
    ensures Play(s, schedule).Some? && Taking(Play(s, schedule).value)
    decreases |schedule|
  {
    hide Act, SocketsOk, CastsOk, Covered, EQ.Inv;
    if schedule != [] {
      if schedule[0].0 >= |s.progs| {
        NothingTaken(s, schedule[1..]);
      } else {
        ActKeepsTaking(s, schedule[0].0, schedule[0].1);
        var o := Act(s, schedule[0].0, schedule[0].1);
        NothingTaken(if o.Moved? then o.state else s, schedule[1..]);
      }
    }
  }
}
