/**
 * When a scheduler can lose its alarm: the only alarm permit is gone once an ALARM_INPUT is turned
 * away. Whether that can happen is told by the queue's bound and by who else posts.
 */
module TickLoss {
  import opened Basics
  import opened LockFreeQueue
  import EQ = EventQueue
  import opened TickHandshake

  // ---------------------------------------------------------------- when it cannot

  /** Nobody but alarms posts, and a Put in progress looks at no node that was popped. */
  ghost predicate Calm(s: State)
  {
    && Inv(s) && s.lost == 0 && 1 <= s.eq.q.maxSize
    && (forall t :: 0 <= t < |s.progs| ==> !s.progs[t].Away? && !s.progs[t].PostingOther?)
    && (forall i :: 0 <= i < |s.eq.pushed| ==> s.eq.pushed[i] == Alarm)
    && (forall t :: 0 <= t < |s.progs| ==> Fresh(s.eq.q, s.eq.pcs[t]))
  }

  ghost predicate Fresh(q: Lfq<Event>, pc: EQ.PC<Event>)
  {
    match pc
    case PutPush(_, WErase(last)) => last == q.head
    case PutPush(_, WCheck) => q.nodes != [] && LockFreeQueue.At(q.nodes[0].id) == q.head
    case _ => true
  }

  /** An alarm that is being put is the only one there is: the queue is empty. */
  lemma PuttingMeansEmpty(s: State, t: nat)
    requires Calm(s) && t < |s.progs| && EQ.Offered(s.eq.pcs[t]).Some?
    ensures EQ.Offered(s.eq.pcs[t]) == Some(Alarm) && Live(s.eq.q) == []
  {
    hide EQ.Inv, Live, QOk;
    assert ThOk(Th(s.eq.pcs[t], s.progs[t]));
    SumBounds(TickUnit, Threads(s));
    assert TickUnit(Threads(s)[t]) == 1;
    assert Queued(s) <= 0;
    LiveArePushed(s);
    AllTheSame(Live(s.eq.q), Alarm);
  }

  lemma LiveArePushed(s: State)
    requires Calm(s)
    ensures forall i :: 0 <= i < |Live(s.eq.q)| ==> Live(s.eq.q)[i] == Alarm
  {
    hide Live, Sum, QOk;
    assert s.eq.pushed == s.eq.popped + Live(s.eq.q);
    forall i | 0 <= i < |Live(s.eq.q)| ensures Live(s.eq.q)[i] == Alarm {
      assert Live(s.eq.q)[i] == s.eq.pushed[|s.eq.popped| + i];
    }
  }

  /** A step inside a queue call keeps all calm; the empty queue turns no alarm away. */
  lemma QueueKeepsCalm(s: State, t: nat)
    requires Calm(s) && t < |s.progs| && (EQ.InPut(s.eq.pcs[t]) || EQ.InGet(s.eq.pcs[t])) && QueueGo(s, t).Moved?
    requires Inv(QueueGo(s, t).state)
    ensures Calm(QueueGo(s, t).state)
  {
    hide EQ.Inv, Live, QOk, Sum, EQ.Run;
    var s' := QueueGo(s, t).state;
    EQ.StepOfCall(CFG, s.eq, t);
    EQ.RunKeepsSize(CFG, s.eq, t);
    assert ThOk(Th(s.eq.pcs[t], s.progs[t]));
    NothingTurnedAway(s, t);
    forall u | 0 <= u < |s'.progs| ensures Fresh(s'.eq.q, s'.eq.pcs[u]) { StaysFresh(s, t, u); }
    hide Inv, Fresh;
    match EQ.EffectOf(s.eq, t)
    case Enqueue(e) => PuttingMeansEmpty(s, t);
    case _ =>
  }

  lemma NothingTurnedAway(s: State, t: nat)
    requires Calm(s) && t < |s.progs|
    ensures !EQ.EffectOf(s.eq, t).Reject?
  {
    hide Live, Sum;
    if s.eq.pcs[t].PutPush? && s.eq.pcs[t].w.WCheck? {
      assert EQ.Inv(CFG, s.eq) && Fresh(s.eq.q, s.eq.pcs[t]);
      PuttingMeansEmpty(s, t);
      LiveOk(s.eq.q);
    }
  }

  lemma StaysFresh(s: State, t: nat, u: nat)
    requires Calm(s) && t < |s.progs| && u < |s.progs| && EQ.Run(CFG, s.eq, t).Moved?
    ensures var eq' := EQ.Run(CFG, s.eq, t).state; u < |eq'.pcs| && Fresh(eq'.q, eq'.pcs[u])
  {
    hide Live, Sum, Pos, Values;
    assert EQ.Inv(CFG, s.eq) && EQ.PcOk(s.eq.q, s.eq.mEvent, s.eq.pcs[t]) && Fresh(s.eq.q, s.eq.pcs[u]);
    EQ.RunKeepsSize(CFG, s.eq, t);
    if s.eq.pcs[t].PutPush? {
      WriterStep(s.eq.q, s.eq.pcs[t].w, s.eq.mEvent, RBegin);
      if u != t && s.eq.pcs[u].PutPush? { EQ.WriterAlone(CFG, s.eq, t, u); }
    } else if s.eq.pcs[t].GetPop? {
      ReaderStep(s.eq.q, s.eq.pcs[t].r, WBegin);
      ReaderLive(s.eq.q, s.eq.pcs[t].r);
      if EQ.Offered(s.eq.pcs[u]).Some? { PuttingMeansEmpty(s, u); }
    }
  }

  lemma OwnKeepsCalm(s: State, t: nat, a: Action)
    requires Calm(s) && t < |s.progs| && Act(s, t, a).Moved? && (!a.Step? || !(EQ.InPut(s.eq.pcs[t]) || EQ.InGet(s.eq.pcs[t])))
    ensures Calm(Act(s, t, a).state)
  {
    hide EQ.Inv, Live, QOk, Sum, EQ.Run;
    OwnStepKeepsInv(s, t, a);
    assert ThOk(Th(s.eq.pcs[t], s.progs[t]));
    hide Inv;
  }

  lemma ActKeepsCalm(s: State, t: nat, a: Action)
    requires Calm(s) && t < |s.progs|
    ensures !Act(s, t, a).Fault?
    ensures Act(s, t, a).Moved? ==> Calm(Act(s, t, a).state)
  {
    ActKeepsInv(s, t, a);
    if Act(s, t, a).Moved? {
      if a.Step? && (EQ.InPut(s.eq.pcs[t]) || EQ.InGet(s.eq.pcs[t])) { QueueKeepsCalm(s, t); } else { OwnKeepsCalm(s, t, a); }
    }
  }

  lemma {:induction false} PlayKeepsCalm(s: State, schedule: seq<(nat, Action)>)
    requires Calm(s)
    ensures Play(s, schedule).Some? && Calm(Play(s, schedule).value)
    decreases |schedule|
  {
    hide Act, EQ.Inv, Live, QOk, Sum, Fresh;
    if schedule != [] {
      if schedule[0].0 >= |s.progs| {
        PlayKeepsCalm(s, schedule[1..]);
      } else {
        ActKeepsCalm(s, schedule[0].0, schedule[0].1);
        var o := Act(s, schedule[0].0, schedule[0].1);
        PlayKeepsCalm(if o.Moved? then o.state else s, schedule[1..]);
      }
    }
  }

  // ---------------------------------------------------------------- when it can

  lemma {:induction false} PlayAppend(s: State, a: seq<(nat, Action)>, b: seq<(nat, Action)>)
    requires Inv(s)
    ensures Play(s, a).Some? && Inv(Play(s, a).value) && Play(s, a + b) == Play(Play(s, a).value, b)
    decreases |a|
  {
    hide Act, EQ.Inv, Live, QOk, Sum;
    if a == [] {
      assert a + b == b;
    } else {
      assert (a + b)[1..] == a[1..] + b && (a + b)[0] == a[0];
      var (t, x) := a[0];
      if t < |s.progs| { ActKeepsInv(s, t, x); }
      PlayAppend(if t < |s.progs| && Act(s, t, x).Moved? then Act(s, t, x).state else s, a[1..], b);
    }
  }

  /** Nobody but perhaps t is inside a call, and no consumed nodes are stored. */
  ghost predicate Quiet(s: State, t: nat)
  {
    && Inv(s) && t < |s.progs| && EQ.Dead(s.eq.q) == 0
    && forall u :: 0 <= u < |s.progs| && u != t ==> s.eq.pcs[u].Idle?
  }

  /** What a finished Put of event e makes of a state; a full queue turns the event away. */
  ghost predicate PutResult(s: State, e: Event, f: State)
  {
    && f.progs == s.progs && f.permits == s.permits && f.eq.q.maxSize == s.eq.q.maxSize && f.eq.popped == s.eq.popped
    && if |Live(s.eq.q)| < s.eq.q.maxSize then Live(f.eq.q) == Live(s.eq.q) + [e] && f.lost == s.lost
       else Live(f.eq.q) == Live(s.eq.q) && f.lost == s.lost + if e.Alarm? then 1 else 0
  }

  /** A Put that nobody disturbs runs to its end. */
  lemma {:induction false} PutThrough(s: State, t: nat) returns (steps: seq<(nat, Action)>)
    requires Quiet(s, t) && EQ.InPut(s.eq.pcs[t])
    ensures Play(s, steps).Some?
    ensures var f := Play(s, steps).value;
            && Quiet(f, t) && f.eq.pcs[t].PutDone?
            && match EQ.Offered(s.eq.pcs[t])
               case Some(e) => PutResult(s, e, f)
               case None =>
                 && f.progs == s.progs && f.permits == s.permits && f.lost == s.lost && f.eq.q.maxSize == s.eq.q.maxSize
                 && f.eq.popped == s.eq.popped && Live(f.eq.q) == Live(s.eq.q)
    decreases EQ.Rank(s.eq.pcs[t])
  {
    hide EQ.Inv, Live, QOk, Sum, EQ.Run, EQ.Dead;
    EQ.PutAlone(CFG, s.eq, t);
    ActKeepsInv(s, t, Step);
    var s' := QueueGo(s, t).state;
    assert Act(s, t, Step) == Moved(s');
    assert s'.eq.pcs == s.eq.pcs[t := s'.eq.pcs[t]];
    var rest := [];
    if EQ.InPut(s'.eq.pcs[t]) { rest := PutThrough(s', t); }
    steps := [(t, Step)] + rest;
    assert steps[1..] == rest;
  }

  /** Somebody else posts an event while nobody is inside a call. */
  lemma PostOne(s: State, o: nat) returns (steps: seq<(nat, Action)>)
    requires Quiet(s, o) && s.progs[o].Away? && s.eq.pcs[o].Idle? && |Live(s.eq.q)| < s.eq.q.maxSize
    ensures Play(s, steps).Some?
    ensures var f := Play(s, steps).value;
            && Quiet(f, o) && f.progs == s.progs && f.eq.pcs == s.eq.pcs && f.permits == s.permits
            && f.eq.q.maxSize == s.eq.q.maxSize && |Live(f.eq.q)| == |Live(s.eq.q)| + 1
  {
    hide EQ.Inv, Live, QOk, Sum, EQ.Run, EQ.Dead;
    ActKeepsInv(s, o, PostOther);
    var s1 := Act(s, o, PostOther).state;
    var put := PutThrough(s1, o);
    var s2 := Play(s1, put).value;
    ActKeepsInv(s2, o, Step);
    var s3 := Act(s2, o, Step).state;
    assert s3.progs == s.progs && s3.eq.pcs == s.eq.pcs;
    assert Play(s2, [(o, Step)]) == Some(s3) by { assert [(o, Step)][1..] == []; }
    PlayAppend(s1, put, [(o, Step)]);
    steps := [(o, PostOther)] + (put + [(o, Step)]);
    assert steps[1..] == put + [(o, Step)];
  }

  lemma {:induction false} FillUp(s: State, o: nat) returns (steps: seq<(nat, Action)>)
    requires Quiet(s, o) && s.progs[o].Away? && s.eq.pcs[o].Idle?
    ensures Play(s, steps).Some?
    ensures var f := Play(s, steps).value;
            && Quiet(f, o) && f.progs == s.progs && f.eq.pcs == s.eq.pcs && f.permits == s.permits
            && f.eq.q.maxSize == s.eq.q.maxSize <= |Live(f.eq.q)|
    decreases s.eq.q.maxSize - |Live(s.eq.q)|
  {
    hide EQ.Inv, Live, QOk, Sum, Quiet;
    if s.eq.q.maxSize <= |Live(s.eq.q)| {
      steps := [];
    } else {
      QuietInv(s, o);
      var one := PostOne(s, o);
      var s1 := Play(s, one).value;
      var rest := FillUp(s1, o);
      PlayAppend(s, one, rest);
      steps := one + rest;
    }
  }

  lemma QuietInv(s: State, t: nat)
    requires Quiet(s, t)
    ensures Inv(s) && t < |s.progs|
  {
  }

  /** An alarm that goes off over a full queue is lost, with the permit. */
  lemma LoseAlarm(s: State, t: nat) returns (steps: seq<(nat, Action)>)
    requires Quiet(s, t) && s.progs[t].Quiet? && s.eq.pcs[t].Idle? && s.permits == 1 && s.eq.q.maxSize <= |Live(s.eq.q)|
    ensures Play(s, steps).Some? && Play(s, steps).value.lost > 0
  {
    hide EQ.Inv, Live, QOk, Sum, EQ.Run, EQ.Dead;
    ActKeepsInv(s, t, RaiseAlarm);
    var s1 := Act(s, t, RaiseAlarm).state;
    ActKeepsInv(s1, t, Step);
    var s2 := Act(s1, t, Step).state;
    var put := PutThrough(s2, t);
    steps := [(t, RaiseAlarm)] + ([(t, Step)] + put);
    assert steps[1..] == [(t, Step)] + put && ([(t, Step)] + put)[1..] == put;
    assert Play(s1, [(t, Step)] + put) == Play(s2, put);
  }

  lemma LossyRun(maxSize: nat, alarms: nat, others: nat) returns (schedule: seq<(nat, Action)>)
    requires 1 <= alarms && (maxSize == 0 || 1 <= others)
    ensures Play(TickHandshake.Init(maxSize, alarms, others), schedule).Some?
    ensures Play(TickHandshake.Init(maxSize, alarms, others), schedule).value.lost > 0
  {
    var s := TickHandshake.Init(maxSize, alarms, others);
    InitInv(maxSize, alarms, others);
    InitOk(Other, maxSize);
    hide EQ.Inv, Live, QOk, Sum, EQ.Run;
    if maxSize == 0 {
      schedule := LoseAlarm(s, 1);
    } else {
      var o := 1 + alarms;
      var fill := FillUp(s, o);
      var s1 := Play(s, fill).value;
      var lose := LoseAlarm(s1, 1);
      PlayAppend(s, fill, lose);
      schedule := fill + lose;
    }
  }

  /** In no run is an alarm lost. */
  ghost predicate NeverLost(maxSize: nat, alarms: nat, others: nat)
  {
    forall schedule: seq<(nat, Action)> ::
      var f := Play(TickHandshake.Init(maxSize, alarms, others), schedule); f.Some? && f.value.lost == 0
  }

  /**
   * A scheduler with an alarm never loses its only permit, whatever the interleaving, if and only
   * if its queue can hold an event and nobody but alarms ever posts to it.
   */
  lemma NeverLostIff(maxSize: nat, alarms: nat, others: nat)
    requires 1 <= alarms
    ensures NeverLost(maxSize, alarms, others) <==> 1 <= maxSize && others == 0
  {
    if 1 <= maxSize && others == 0 {
      InitCalm(maxSize, alarms);
      forall schedule: seq<(nat, Action)>
        ensures var f := Play(TickHandshake.Init(maxSize, alarms, others), schedule); f.Some? && f.value.lost == 0
      {
        PlayKeepsCalm(TickHandshake.Init(maxSize, alarms, others), schedule);
      }
    } else {
      var schedule := LossyRun(maxSize, alarms, others);
    }
  }

  lemma InitCalm(maxSize: nat, alarms: nat)
    requires 1 <= maxSize
    ensures Calm(TickHandshake.Init(maxSize, alarms, 0))
  {
    hide EQ.Inv, Live, QOk, Sum;
    InitInv(maxSize, alarms, 0);
  }
}
