/**
 * XLEventQueue for a caller that is not disturbed: Put and Get do, and return, what one expects of
 * a bounded queue.
 */
module QueueAlone {
  import opened Basics
  import opened EventQueue
  import LFQ = LockFreeQueue

  /** Thread t goes on n times. */
  function Going<T>(t: nat, n: nat): seq<(nat, Action<T>)>
  {
    if n == 0 then [] else [(t, Go)] + Going(t, n - 1)
  }

  /** A push that no pop disturbs has the consumed nodes erased when it looks at the size. */
  predicate Tidy<T>(q: LFQ.Lfq<T>, pc: PC<T>)
  {
    pc.PutPush? ==> (pc.w.WErase? ==> pc.w.last == q.head) && (pc.w.WCheck? ==> Dead(q) == 0)
  }

  lemma StepIsTidy<T>(cfg: Config, s: State<T>, t: nat)
    requires Inv(cfg, s) && t < |s.pcs| && InPut(s.pcs[t]) && Tidy(s.q, s.pcs[t]) && Run(cfg, s, t).Moved?
    ensures var s' := Run(cfg, s, t).state;
            |s'.pcs| == |s.pcs| && Tidy(s'.q, s'.pcs[t]) && s'.q.maxSize == s.q.maxSize && s'.popped == s.popped
    ensures EffectOf(s, t).Reject? ==> s.q.maxSize <= |LFQ.Live(s.q)|
  {
    hide LFQ.Live, LFQ.Pos, LFQ.Values, Sum, Exclusive;
    assert PcOk(s.q, s.mEvent, s.pcs[t]);
    LFQ.LiveOk(s.q);
    if s.pcs[t].PutPush? { LFQ.WriterStep(s.q, s.pcs[t].w, s.mEvent, LFQ.RBegin); }
  }

  /** What a Put has done when it is over; `e` is its event if it is not yet in the queue. */
  ghost predicate PutOver<T>(s: State<T>, t: nat, s': State<T>, e: Option<T>)
    requires t < |s.pcs|
  {
    && |s'.pcs| == |s.pcs| && s'.pcs == s.pcs[t := s'.pcs[t]] && s'.popped == s.popped
    && if e.Some? then
         var room := |LFQ.Live(s.q)| < s.q.maxSize;
         s'.pcs[t] == PutDone(room) && LFQ.Live(s'.q) == LFQ.Live(s.q) + if room then [e.value] else []
       else s'.pcs[t] == PutDone(Accepted(s.pcs[t])) && LFQ.Live(s'.q) == LFQ.Live(s.q)
  }

  lemma {:induction false} PutGoesOn<T>(cfg: Config, s: State<T>, t: nat) returns (n: nat)
    requires Inv(cfg, s) && t < |s.pcs| && (InPut(s.pcs[t]) || s.pcs[t].PutDone?) && Tidy(s.q, s.pcs[t])
    requires forall u :: 0 <= u < |s.pcs| && u != t ==> !InPut(s.pcs[u])
    ensures Play(cfg, s, Going(t, n)).Some? && Inv(cfg, Play(cfg, s, Going(t, n)).value)
    ensures PutOver(s, t, Play(cfg, s, Going(t, n)).value, Offered(s.pcs[t]))
    decreases Budget(s.q, s.pcs[t])
  {
    hide Inv, Run, LFQ.Live, LFQ.QOk, Budget, Tidy;
    if s.pcs[t].PutDone? {
      n := 0;
    } else {
      PutNeverWaits(cfg, s, t);
      StepOfCall(cfg, s, t);
      StepIsTidy(cfg, s, t);
      OwnStepShrinks(cfg, s, t);
      BudgetOk(cfg, s, t);
      var s' := Run(cfg, s, t).state;
      n := PutGoesOn(cfg, s', t);
      n := n + 1;
      assert Going<T>(t, n)[1..] == Going<T>(t, n - 1);
    }
  }

  /**
   * A Put that no other caller disturbs, whatever calls of Get stand still meanwhile: it appends its
   * event and returns true if there is room, and otherwise returns false and changes nothing.
   */
  lemma PutAppends<T>(cfg: Config, s: State<T>, t: nat, e: T) returns (n: nat)
    requires Inv(cfg, s) && t < |s.pcs| && s.pcs[t].Idle?
    requires forall u :: 0 <= u < |s.pcs| ==> !InPut(s.pcs[u])
    ensures Play(cfg, s, [(t, CallPut(e))] + Going(t, n)).Some?
    ensures var s' := Play(cfg, s, [(t, CallPut(e))] + Going(t, n)).value;
            var room := |LFQ.Live(s.q)| < s.q.maxSize;
            && s'.pcs == s.pcs[t := PutDone(room)] && LFQ.Live(s'.q) == LFQ.Live(s.q) + (if room then [e] else [])
            && s'.popped == s.popped && Act(cfg, s', t, Return) == Moved(At(s', t, Idle))
  {
    hide Inv, LFQ.Live, Run;
    var s1 := At(s, t, PutLock(e));
    CallKeepsInv(cfg, s, t, PutLock(e));
    n := PutGoesOn(cfg, s1, t);
    var schedule := [(t, CallPut(e))] + Going(t, n);
    assert schedule[1..] == Going(t, n);
    assert Act(cfg, s, t, CallPut(e)) == Moved(s1);
  }

  /** What a Get has done when it is over: it has the oldest element, if it had none before. */
  ghost predicate GetOver<T>(s: State<T>, t: nat, s': State<T>)
    requires t < |s.pcs|
  {
    && |s'.pcs| == |s.pcs| && s'.pcs == s.pcs[t := s'.pcs[t]] && s'.pushed == s.pushed
    && if Carried(s.pcs[t]).Some? then s'.pcs[t] == GetDone(Carried(s.pcs[t])) && LFQ.Live(s'.q) == LFQ.Live(s.q)
       else LFQ.Live(s.q) != [] && s'.pcs[t] == GetDone(Some(LFQ.Live(s.q)[0])) && LFQ.Live(s'.q) == LFQ.Live(s.q)[1..]
  }

  lemma GetNeverWaits<T>(cfg: Config, s: State<T>, t: nat)
    requires Inv(cfg, s) && t < |s.pcs| && InGet(s.pcs[t]) && (s.pcs[t].GetTake? ==> 0 < Permits(s))
    requires forall u :: 0 <= u < |s.pcs| && u != t ==> !InGet(s.pcs[u])
    ensures Run(cfg, s, t).Moved?
  {
    hide LFQ.Live, LFQ.Pos, LFQ.Values, Sum;
    RunKeepsInv(cfg, s, t);
    if s.reader.Some? { assert Reading(s.pcs[s.reader.value]); }
  }

  lemma {:induction false} GetGoesOn<T>(cfg: Config, s: State<T>, t: nat) returns (n: nat)
    requires Inv(cfg, s) && t < |s.pcs| && (InGet(s.pcs[t]) || s.pcs[t].GetDone?) && (s.pcs[t].GetTake? ==> 0 < Permits(s))
    requires forall u :: 0 <= u < |s.pcs| && u != t ==> !InGet(s.pcs[u])
    ensures Play(cfg, s, Going(t, n)).Some? && Inv(cfg, Play(cfg, s, Going(t, n)).value)
    ensures GetOver(s, t, Play(cfg, s, Going(t, n)).value)
    decreases Budget(s.q, s.pcs[t])
  {
    hide Inv, Run, LFQ.Live, LFQ.QOk, Budget;
    if s.pcs[t].GetDone? {
      n := 0;
      GetHasEvent(cfg, s, t);
    } else {
      GetNeverWaits(cfg, s, t);
      StepOfCall(cfg, s, t);
      LeavesTake(cfg, s, t);
      OwnStepShrinks(cfg, s, t);
      BudgetOk(cfg, s, t);
      var s' := Run(cfg, s, t).state;
      n := GetGoesOn(cfg, s', t);
      n := n + 1;
      assert Going<T>(t, n)[1..] == Going<T>(t, n - 1);
    }
  }

  lemma LeavesTake<T>(cfg: Config, s: State<T>, t: nat)
    requires t < |s.pcs| && InGet(s.pcs[t]) && Run(cfg, s, t).Moved?
    ensures |Run(cfg, s, t).state.pcs| == |s.pcs| && !Run(cfg, s, t).state.pcs[t].GetTake?
    ensures !EffectOf(s, t).Enqueue? && !EffectOf(s, t).Reject?
  {
    hide LFQ.Live;
  }

  /** A Get that no other Get disturbs, if a permit is free: it takes out the oldest element and returns it. */
  lemma GetTakesOldest<T>(cfg: Config, s: State<T>, t: nat) returns (n: nat)
    requires Inv(cfg, s) && t < |s.pcs| && s.pcs[t].Idle? && 0 < Permits(s)
    requires forall u :: 0 <= u < |s.pcs| ==> !InGet(s.pcs[u])
    ensures LFQ.Live(s.q) != [] && Play(cfg, s, [(t, CallGet)] + Going(t, n)).Some?
    ensures var s' := Play(cfg, s, [(t, CallGet)] + Going(t, n)).value;
            && s'.pcs == s.pcs[t := GetDone(Some(LFQ.Live(s.q)[0]))] && LFQ.Live(s'.q) == LFQ.Live(s.q)[1..]
            && s'.pushed == s.pushed && Act(cfg, s', t, Return) == Moved(At(s', t, Idle))
  {
    hide Inv, LFQ.Live, Run;
    var s1 := At(s, t, GetTake);
    CallKeepsInv(cfg, s, t, GetTake);
    n := GetGoesOn(cfg, s1, t);
    var schedule: seq<(nat, Action<T>)> := [(t, CallGet)] + Going(t, n);
    assert schedule[1..] == Going<T>(t, n);
    assert Act(cfg, s, t, CallGet) == Moved(s1);
  }
}
