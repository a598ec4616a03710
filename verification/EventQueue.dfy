/**
 * XLEventQueue: any number of threads calling Put and Get on one XLLFQ, with a writer mutex, a
 * reader mutex (each only if the queue was created for it) and a counting semaphore. Every
 * access to shared state is a step of its own, so calls of all threads interleave freely.
 */
module EventQueue {
  import opened Basics
  import opened LockFreeQueue

  /** The flags given to Create that Put and Get look at. */
  datatype Config = Config(multiReader: bool, multiWriter: bool)

  /** Where a thread is inside Put or Get. `due` and `e` record what the call is about. */
  datatype PC<T> =
    | Idle
    | PutLock(e: T) | PutCopy(e: T) | PutPush(e: T, w: WriterPC) | PutUnlock(e: T, ok: bool) | PutGive(e: T)
    | PutDone(ok: bool)
    | GetTake | GetLock | GetPop(r: ReaderPC<T>, due: Option<T>) | GetUnlock(out: Option<T>)
    | GetDone(out: Option<T>)

  /** The queue's fields, every thread's position, and (history) the events pushed and popped. */
  datatype State<T> = State(
    q: Lfq<T>, mEvent: T, writer: Option<nat>, reader: Option<nat>, semCount: int, semMax: int,
    pcs: seq<PC<T>>, pushed: seq<T>, popped: seq<T>)

  /** After Create: the semaphore is created with Create(0). */
  function Init<T>(dummy: T, maxSize: nat, threads: nat): State<T>
  {
    State(LockFreeQueue.Init(dummy, maxSize), dummy, None, None, 0, 0, seq(threads, _ => Idle), [], [])
  }

  predicate InPut<T>(pc: PC<T>)
  {
    pc.PutLock? || pc.PutCopy? || pc.PutPush? || pc.PutUnlock? || pc.PutGive?
  }

  predicate InGet<T>(pc: PC<T>)
  {
    pc.GetTake? || pc.GetLock? || pc.GetPop? || pc.GetUnlock?
  }

  /** Without MultiWriter a caller must be the only one inside Put; likewise for Get. */
  predicate MayPut<T>(cfg: Config, s: State<T>)
  {
    cfg.multiWriter || forall u :: 0 <= u < |s.pcs| ==> !InPut(s.pcs[u])
  }

  predicate MayGet<T>(cfg: Config, s: State<T>)
  {
    cfg.multiReader || forall u :: 0 <= u < |s.pcs| ==> !InGet(s.pcs[u])
  }

  function At<T>(s: State<T>, t: nat, pc: PC<T>): State<T>
    requires t < |s.pcs|
  {
    s.(pcs := s.pcs[t := pc])
  }

  /** The next access thread t makes inside the call it is in. */
  function Run<T>(cfg: Config, s: State<T>, t: nat): Outcome<State<T>>
    requires t < |s.pcs|
  {
    match s.pcs[t]
    case Idle => Blocked
    case PutDone(_) => Blocked
    case GetDone(_) => Blocked
    case PutLock(e) =>
      if !cfg.multiWriter then Moved(At(s, t, PutCopy(e)))
      else if s.writer != None then Blocked
      else Moved(At(s, t, PutCopy(e)).(writer := Some(t)))
    case PutCopy(e) => Moved(At(s, t, PutPush(e, WBegin)).(mEvent := e))
    case PutPush(e, w) =>
      (match WStep(s.q, w, s.mEvent)
       case None => Fault
       case Some(n) =>
         var pc := if n.1.WDone? then PutUnlock(e, n.1.ok) else PutPush(e, n.1);
         Moved(At(s, t, pc).(q := n.0, pushed := s.pushed + if w.WHook? then [s.mEvent] else [])))
    case PutUnlock(e, ok) =>
      Moved(At(s, t, if ok then PutGive(e) else PutDone(false)).(writer := if cfg.multiWriter then None else s.writer))
    case PutGive(e) => Moved(At(s, t, PutDone(true)).(semCount := s.semCount - 1))
    case GetTake => if s.semCount >= s.semMax then Blocked else Moved(At(s, t, GetLock).(semCount := s.semCount + 1))
    case GetLock =>
      if !cfg.multiReader then Moved(At(s, t, GetPop(RBegin, None)))
      else if s.reader != None then Blocked
      else Moved(At(s, t, GetPop(RBegin, None)).(reader := Some(t)))
    case GetPop(r, due) =>
      (match RStep(s.q, r)
       case None => Fault
       case Some(n) =>
         if r.RSet? then
           (match Deref(n.0, n.0.head)
            case None => Fault
            case Some(v) => Moved(At(s, t, GetPop(n.1, Some(v))).(q := n.0, popped := s.popped + [v])))
         else
           Moved(At(s, t, if n.1.RDone? then GetUnlock(n.1.out) else GetPop(n.1, due)).(q := n.0)))
    case GetUnlock(out) =>
      Moved(At(s, t, GetDone(out)).(reader := if cfg.multiReader then None else s.reader))
  }

  // ---------------------------------------------------------------- invariant

  function Permits<T>(s: State<T>): int
  {
    s.semMax - s.semCount
  }

  /** 1 for a writer that has pushed but not yet called Give. */
  function PushedNotGiven<T>(pc: PC<T>): int
  {
    if (pc.PutPush? && pc.w.WTail?) || (pc.PutUnlock? && pc.ok) || pc.PutGive? then 1 else 0
  }

  /** 1 for a reader that has passed Take but not yet popped. */
  function TakenNotPopped<T>(pc: PC<T>): int
  {
    if pc.GetLock? || (pc.GetPop? && !pc.r.RCopy?) then 1 else 0
  }

  /** Inside the region the writer mutex protects. */
  predicate Writing<T>(pc: PC<T>)
  {
    pc.PutCopy? || pc.PutPush? || pc.PutUnlock?
  }

  predicate Reading<T>(pc: PC<T>)
  {
    pc.GetPop? || pc.GetUnlock?
  }

  ghost predicate Exclusive<T>(cfg: Config, s: State<T>)
  {
    && (forall t :: 0 <= t < |s.pcs| && Writing(s.pcs[t]) && cfg.multiWriter ==> s.writer == Some(t))
    && (forall t :: 0 <= t < |s.pcs| && Reading(s.pcs[t]) && cfg.multiReader ==> s.reader == Some(t))
    && (forall t, u :: 0 <= t < |s.pcs| && 0 <= u < |s.pcs| && InPut(s.pcs[t]) && InPut(s.pcs[u]) && !cfg.multiWriter ==> t == u)
    && (forall t, u :: 0 <= t < |s.pcs| && 0 <= u < |s.pcs| && InGet(s.pcs[t]) && InGet(s.pcs[u]) && !cfg.multiReader ==> t == u)
    && (s.writer.Some? ==> cfg.multiWriter && s.writer.value < |s.pcs| && Writing(s.pcs[s.writer.value]))
    && (s.reader.Some? ==> cfg.multiReader && s.reader.value < |s.pcs| && Reading(s.pcs[s.reader.value]))
  }

  /** What one thread may rely on between two of its steps. */
  ghost predicate PcOk<T>(q: Lfq<T>, mEvent: T, pc: PC<T>)
    requires QOk(q)
  {
    match pc
    case PutPush(e, w) => WOk(q, w) && !w.WDone? && mEvent == e
    case GetPop(r, due) =>
      && ROk(q, r) && !r.RDone?
      && (due.Some? <==> r.RCopy?)
      && (r.RCopy? ==> due == Deref(q, q.head))
      && (r.RCmp? ==> r.next != End)
    case GetUnlock(out) => out.Some?
    case GetDone(out) => out.Some?
    case _ => true
  }

  ghost predicate Inv<T>(cfg: Config, s: State<T>)
  {
    && QOk(s.q)
    && Exclusive(cfg, s)
    && (forall t :: 0 <= t < |s.pcs| ==> PcOk(s.q, s.mEvent, s.pcs[t]))
    && Permits(s) >= 0
    && |Live(s.q)| == Permits(s) + Sum(PushedNotGiven, s.pcs) + Sum(TakenNotPopped, s.pcs)
    && s.pushed == s.popped + Live(s.q)
    && s.q.head.id == |s.popped|
  }

  /** How a step may treat one mutex: leave it alone, take it when free, or give it back. */
  predicate LockMove(used: bool, t: nat, before: bool, after: bool, lock: Option<nat>, lock': Option<nat>)
  {
    if !used then lock' == lock
    else (before == after && lock' == lock) || (!before && after && lock == None && lock' == Some(t))
         || (before && !after && lock' == None)
  }

  lemma ExclusiveKept<T>(cfg: Config, s: State<T>, s': State<T>, t: nat, pc': PC<T>)
    requires Exclusive(cfg, s) && t < |s.pcs| && s'.pcs == s.pcs[t := pc']
    requires (InPut(pc') ==> InPut(s.pcs[t])) && (InGet(pc') ==> InGet(s.pcs[t]))
    requires LockMove(cfg.multiWriter, t, Writing(s.pcs[t]), Writing(pc'), s.writer, s'.writer)
    requires LockMove(cfg.multiReader, t, Reading(s.pcs[t]), Reading(pc'), s.reader, s'.reader)
    ensures Exclusive(cfg, s')
  {
  }

  /** A step of one thread keeps the invariant if what it changes balances. */
  lemma Balanced<T>(cfg: Config, s: State<T>, s': State<T>, t: nat, pc': PC<T>)
    requires Inv(cfg, s) && t < |s.pcs| && s'.pcs == s.pcs[t := pc']
    requires QOk(s'.q) && Exclusive(cfg, s') && PcOk(s'.q, s'.mEvent, pc')
    requires forall u :: 0 <= u < |s.pcs| && u != t ==> PcOk(s'.q, s'.mEvent, s.pcs[u])
    requires Permits(s') >= 0
    requires |Live(s'.q)| - Permits(s') - PushedNotGiven(pc') - TakenNotPopped(pc')
             == |Live(s.q)| - Permits(s) - PushedNotGiven(s.pcs[t]) - TakenNotPopped(s.pcs[t])
    requires s'.pushed == s'.popped + Live(s'.q) && s'.q.head.id == |s'.popped|
    ensures Inv(cfg, s')
  {
    SumUpdate(PushedNotGiven, s.pcs, t, pc');
    SumUpdate(TakenNotPopped, s.pcs, t, pc');
  }

  lemma WriterAlone<T>(cfg: Config, s: State<T>, t: nat, u: nat)
    requires Exclusive(cfg, s) && t < |s.pcs| && u < |s.pcs| && Writing(s.pcs[t]) && Writing(s.pcs[u])
    ensures t == u
  {
  }

  lemma ReaderAlone<T>(cfg: Config, s: State<T>, t: nat, u: nat)
    requires Exclusive(cfg, s) && t < |s.pcs| && u < |s.pcs| && Reading(s.pcs[t]) && Reading(s.pcs[u])
    ensures t == u
  {
  }

  lemma PushOthers<T>(cfg: Config, s: State<T>, t: nat, w: WriterPC)
    requires QOk(s.q) && WOk(s.q, w) && Exclusive(cfg, s)
    requires forall u :: 0 <= u < |s.pcs| ==> PcOk(s.q, s.mEvent, s.pcs[u])
    requires t < |s.pcs| && s.pcs[t].PutPush? && s.pcs[t].w == w
    ensures WStep(s.q, w, s.mEvent).Some? && QOk(WStep(s.q, w, s.mEvent).value.0)
    ensures forall u :: 0 <= u < |s.pcs| && u != t ==> PcOk(WStep(s.q, w, s.mEvent).value.0, s.mEvent, s.pcs[u])
  {
    hide Live, Pos, Values;
    WriterStep(s.q, w, s.mEvent, RBegin);
    HeadDataKept(s.q, w, s.mEvent);
    var q' := WStep(s.q, w, s.mEvent).value.0;
    forall u | 0 <= u < |s.pcs| && u != t ensures PcOk(q', s.mEvent, s.pcs[u]) {
      if s.pcs[u].PutPush? {
        WriterAlone(cfg, s, t, u);
      } else if s.pcs[u].GetPop? {
        WriterStep(s.q, w, s.mEvent, s.pcs[u].r);
      }
    }
  }

  lemma PushContent<T>(q: Lfq<T>, w: WriterPC, data: T, pushed: seq<T>, popped: seq<T>)
    requires QOk(q) && WOk(q, w) && pushed == popped + Live(q)
    ensures WStep(q, w, data).Some? && QOk(WStep(q, w, data).value.0)
    ensures var q' := WStep(q, w, data).value.0;
            && q'.head == q.head
            && |Live(q')| == |Live(q)| + (if w.WHook? then 1 else 0)
            && (pushed + if w.WHook? then [data] else []) == popped + Live(q')
  {
    hide Live, Pos, Values;
    WriterStep(q, w, data, RBegin);
    WriterLive(q, w, data);
    var more := if w.WHook? then [data] else [];
    assert popped + (Live(q) + more) == pushed + more;
  }

  lemma PushStepKeepsInv<T>(cfg: Config, s: State<T>, t: nat)
    requires Inv(cfg, s) && t < |s.pcs| && s.pcs[t].PutPush?
    ensures Run(cfg, s, t).Moved? && Inv(cfg, Run(cfg, s, t).state)
  {
    hide Live, Pos, Values, Sum, Exclusive;
    var PutPush(e, w) := s.pcs[t];
    PushOthers(cfg, s, t, w);
    PushContent(s.q, w, s.mEvent, s.pushed, s.popped);
    WriterStep(s.q, w, s.mEvent, RBegin);
    var n := WStep(s.q, w, s.mEvent).value;
    var pc' := if n.1.WDone? then PutUnlock(e, n.1.ok) else PutPush(e, n.1);
    var s' := At(s, t, pc').(q := n.0, pushed := s.pushed + if w.WHook? then [s.mEvent] else []);
    assert Run(cfg, s, t) == Moved(s');
    ExclusiveKept(cfg, s, s', t, pc');
    Balanced(cfg, s, s', t, pc');
  }

  lemma PopOthers<T>(cfg: Config, s: State<T>, t: nat, r: ReaderPC<T>)
    requires QOk(s.q) && ROk(s.q, r) && Exclusive(cfg, s)
    requires forall u :: 0 <= u < |s.pcs| ==> PcOk(s.q, s.mEvent, s.pcs[u])
    requires t < |s.pcs| && s.pcs[t].GetPop? && s.pcs[t].r == r
    ensures RStep(s.q, r).Some? && QOk(RStep(s.q, r).value.0)
    ensures forall u :: 0 <= u < |s.pcs| && u != t ==> PcOk(RStep(s.q, r).value.0, s.mEvent, s.pcs[u])
  {
    hide Live, Pos, Values;
    ReaderStep(s.q, r, WBegin);
    var q' := RStep(s.q, r).value.0;
    forall u | 0 <= u < |s.pcs| && u != t ensures PcOk(q', s.mEvent, s.pcs[u]) {
      if s.pcs[u].PutPush? {
        ReaderStep(s.q, r, s.pcs[u].w);
      } else if s.pcs[u].GetPop? {
        ReaderAlone(cfg, s, t, u);
      }
    }
  }

  lemma PopContent<T>(q: Lfq<T>, r: ReaderPC<T>, pushed: seq<T>, popped: seq<T>)
    requires QOk(q) && ROk(q, r) && pushed == popped + Live(q)
    ensures RStep(q, r).Some? && QOk(RStep(q, r).value.0)
    ensures var (q', r') := RStep(q, r).value;
            if r.RSet? then
              && Live(q) != [] && Deref(q', q'.head) == Some(Live(q)[0]) && |Live(q')| == |Live(q)| - 1
              && pushed == popped + [Live(q)[0]] + Live(q') && q'.head == LockFreeQueue.At(q.head.id + 1)
            else Live(q') == Live(q) && q'.head == q.head
  {
    hide Live, Pos, Values;
    ReaderStep(q, r, WBegin);
    ReaderLive(q, r);
    if r.RSet? {
      assert popped + ([Live(q)[0]] + Live(q)[1..]) == popped + [Live(q)[0]] + Live(q)[1..];
      assert Live(q) == [Live(q)[0]] + Live(q)[1..];
    }
  }

  /** A reader that has passed Take but not yet popped has an element to pop. */
  lemma TakenHasElement<T>(cfg: Config, s: State<T>, t: nat)
    requires Inv(cfg, s) && t < |s.pcs| && TakenNotPopped(s.pcs[t]) == 1
    ensures Live(s.q) != []
  {
    SumBounds(PushedNotGiven, s.pcs);
    SumBounds(TakenNotPopped, s.pcs);
  }

  lemma PopStepKeepsInv<T>(cfg: Config, s: State<T>, t: nat)
    requires Inv(cfg, s) && t < |s.pcs| && s.pcs[t].GetPop?
    ensures Run(cfg, s, t).Moved? && Inv(cfg, Run(cfg, s, t).state)
  {
    hide Live, Pos, Values, Sum, Exclusive;
    var GetPop(r, due) := s.pcs[t];
    PopOthers(cfg, s, t, r);
    PopContent(s.q, r, s.pushed, s.popped);
    ReaderStep(s.q, r, WBegin);
    ReaderLive(s.q, r);
    var n := RStep(s.q, r).value;
    if r.RNext? { TakenHasElement(cfg, s, t); }
    var pc' := if r.RSet? then GetPop(n.1, Some(Live(s.q)[0]))
               else if n.1.RDone? then GetUnlock(n.1.out) else GetPop(n.1, due);
    var s' := At(s, t, pc').(q := n.0, popped := s.popped + if r.RSet? then [Live(s.q)[0]] else []);
    assert s.popped + [] == s.popped;
    assert Run(cfg, s, t) == Moved(s');
    ExclusiveKept(cfg, s, s', t, pc');
    Balanced(cfg, s, s', t, pc');
  }

  /** The steps that touch only a lock or the semaphore. */
  lemma PlainStepKeepsInv<T>(cfg: Config, s: State<T>, t: nat, s': State<T>, pc': PC<T>)
    requires Inv(cfg, s) && t < |s.pcs| && !s.pcs[t].PutPush? && !s.pcs[t].GetPop? && !s.pcs[t].PutCopy?
    requires Run(cfg, s, t) == Moved(s') && s' == At(s, t, pc').(writer := s'.writer, reader := s'.reader, semCount := s'.semCount)
    ensures Inv(cfg, s')
  {
    hide Live, Pos, Values, Sum, Exclusive;
    assert s'.pcs[t] == pc';
    assert PcOk(s'.q, s'.mEvent, pc');
    assert Permits(s') - Permits(s) == PushedNotGiven(s.pcs[t]) + TakenNotPopped(s.pcs[t])
                                       - PushedNotGiven(pc') - TakenNotPopped(pc');
    ExclusiveKept(cfg, s, s', t, pc');
    Balanced(cfg, s, s', t, pc');
  }

  lemma PlainShape<T>(cfg: Config, s: State<T>, t: nat)
    requires t < |s.pcs| && !s.pcs[t].PutPush? && !s.pcs[t].GetPop? && !s.pcs[t].PutCopy?
    ensures !Run(cfg, s, t).Fault?
    ensures Run(cfg, s, t).Moved? ==>
              var s' := Run(cfg, s, t).state;
              |s'.pcs| == |s.pcs| && s' == At(s, t, s'.pcs[t]).(writer := s'.writer, reader := s'.reader, semCount := s'.semCount)
  {
  }

  lemma CopyStepKeepsInv<T>(cfg: Config, s: State<T>, t: nat)
    requires Inv(cfg, s) && t < |s.pcs| && s.pcs[t].PutCopy?
    ensures Run(cfg, s, t).Moved? && Inv(cfg, Run(cfg, s, t).state)
  {
    hide Live, Pos, Values, Sum;
    var s' := Run(cfg, s, t).state;
    forall u | 0 <= u < |s.pcs| && u != t ensures PcOk(s'.q, s'.mEvent, s.pcs[u]) {
      if s.pcs[u].PutPush? { WriterAlone(cfg, s, t, u); }
    }
    ExclusiveKept(cfg, s, s', t, s'.pcs[t]);
    Balanced(cfg, s, s', t, s'.pcs[t]);
  }

  /**
   * Every step of every thread keeps the invariant and never touches freed memory. In
   * particular the pop inside Get finds an element, although its result is not looked at.
   */
  lemma RunKeepsInv<T>(cfg: Config, s: State<T>, t: nat)
    requires Inv(cfg, s) && t < |s.pcs|
    ensures !Run(cfg, s, t).Fault?
    ensures Run(cfg, s, t).Moved? ==> Inv(cfg, Run(cfg, s, t).state)
  {
    hide Live, Pos, Values, Sum, Exclusive, QOk;
    if s.pcs[t].PutPush? {
      PushStepKeepsInv(cfg, s, t);
    } else if s.pcs[t].GetPop? {
      PopStepKeepsInv(cfg, s, t);
    } else if s.pcs[t].PutCopy? {
      CopyStepKeepsInv(cfg, s, t);
    } else {
      PlainShape(cfg, s, t);
      if Run(cfg, s, t).Moved? {
        var s' := Run(cfg, s, t).state;
        PlainStepKeepsInv(cfg, s, t, s', s'.pcs[t]);
      }
    }
  }

  // ---------------------------------------------------------------- calls, and whole runs

  datatype Action<T> = CallPut(e: T) | CallGet | Go | Return

  /** What the world may do next with thread t: start a call, let it go on, or collect the result. */
  function Act<T>(cfg: Config, s: State<T>, t: nat, a: Action<T>): Outcome<State<T>>
    requires t < |s.pcs|
  {
    match a
    case CallPut(e) => if s.pcs[t].Idle? && MayPut(cfg, s) then Moved(At(s, t, PutLock(e))) else Blocked
    case CallGet => if s.pcs[t].Idle? && MayGet(cfg, s) then Moved(At(s, t, GetTake)) else Blocked
    case Go => Run(cfg, s, t)
    case Return => if s.pcs[t].PutDone? || s.pcs[t].GetDone? then Moved(At(s, t, Idle)) else Blocked
  }

  /** A whole run; an action that has to wait is dropped, None if memory was misused. */
  function Play<T>(cfg: Config, s: State<T>, schedule: seq<(nat, Action<T>)>): Option<State<T>>
    decreases |schedule|
  {
    if schedule == [] then Some(s)
    else if schedule[0].0 >= |s.pcs| then Play(cfg, s, schedule[1..])
    else match Act(cfg, s, schedule[0].0, schedule[0].1)
         case Blocked => Play(cfg, s, schedule[1..])
         case Fault => None
         case Moved(s') => Play(cfg, s', schedule[1..])
  }

  lemma CallKeepsInv<T>(cfg: Config, s: State<T>, t: nat, pc': PC<T>)
    requires Inv(cfg, s) && t < |s.pcs|
    requires (s.pcs[t].Idle? && pc'.PutLock? && MayPut(cfg, s)) || (s.pcs[t].Idle? && pc'.GetTake? && MayGet(cfg, s))
             || ((s.pcs[t].PutDone? || s.pcs[t].GetDone?) && pc'.Idle?)
    ensures Inv(cfg, At(s, t, pc'))
  {
    hide Live, Pos, Values, Sum;
    var s' := At(s, t, pc');
    assert Exclusive(cfg, s');
    Balanced(cfg, s, s', t, pc');
  }

  lemma ActKeepsInv<T>(cfg: Config, s: State<T>, t: nat, a: Action<T>)
    requires Inv(cfg, s) && t < |s.pcs|
    ensures !Act(cfg, s, t, a).Fault?
    ensures Act(cfg, s, t, a).Moved? ==>
              Inv(cfg, Act(cfg, s, t, a).state) && |Act(cfg, s, t, a).state.pcs| == |s.pcs|
              && Act(cfg, s, t, a).state.q.maxSize == s.q.maxSize
  {
    hide Live, Pos, Values, Sum, Exclusive, QOk;
    if a.Go? {
      RunKeepsInv(cfg, s, t);
      RunKeepsSize(cfg, s, t);
    } else if Act(cfg, s, t, a).Moved? {
      CallKeepsInv(cfg, s, t, Act(cfg, s, t, a).state.pcs[t]);
    }
  }

  lemma RunKeepsSize<T>(cfg: Config, s: State<T>, t: nat)
    requires t < |s.pcs|
    ensures Run(cfg, s, t).Moved? ==>
              var s' := Run(cfg, s, t).state;
              |s'.pcs| == |s.pcs| && s'.pcs == s.pcs[t := s'.pcs[t]] && s'.q.maxSize == s.q.maxSize
  {
  }

  lemma {:induction false} PlayKeepsInv<T>(cfg: Config, s: State<T>, schedule: seq<(nat, Action<T>)>)
    requires Inv(cfg, s)
    ensures Play(cfg, s, schedule).Some? && Inv(cfg, Play(cfg, s, schedule).value)
    ensures Play(cfg, s, schedule).value.q.maxSize == s.q.maxSize
    decreases |schedule|
  {
    if schedule != [] {
      if schedule[0].0 >= |s.pcs| {
        PlayKeepsInv(cfg, s, schedule[1..]);
      } else {
        ActKeepsInv(cfg, s, schedule[0].0, schedule[0].1);
        var o := Act(cfg, s, schedule[0].0, schedule[0].1);
        PlayKeepsInv(cfg, if o.Moved? then o.state else s, schedule[1..]);
      }
    }
  }

  lemma InitInv<T>(cfg: Config, dummy: T, maxSize: nat, threads: nat)
    ensures Inv(cfg, Init(dummy, maxSize, threads))
  {
    var s := Init(dummy, maxSize, threads);
    InitOk(dummy, maxSize);
    SumZero(PushedNotGiven, s.pcs);
    SumZero(TakenNotPopped, s.pcs);
  }

  /**
   * Permit conservation over every run of any number of callers: the live elements are the free
   * permits, plus the writers that have pushed but not yet given, plus the readers that have
   * taken but not yet popped. No call touches freed memory, no Get returns without an event,
   * events come out in the order they went in, and the bounds hold.
   */
  lemma PermitConservation<T>(cfg: Config, dummy: T, maxSize: nat, threads: nat, schedule: seq<(nat, Action<T>)>)
    ensures Play(cfg, Init(dummy, maxSize, threads), schedule).Some?
    ensures var s := Play(cfg, Init(dummy, maxSize, threads), schedule).value;
            && |Live(s.q)| == Permits(s) + Sum(PushedNotGiven, s.pcs) + Sum(TakenNotPopped, s.pcs)
            && Permits(s) >= 0
            && (forall t :: 0 <= t < |s.pcs| ==> s.pcs[t] != GetDone(None))
            && s.pushed == s.popped + Live(s.q)
            && |Live(s.q)| <= maxSize && |s.q.nodes| <= maxSize + 1
  {
    InitInv(cfg, dummy, maxSize, threads);
    PlayKeepsInv(cfg, Init(dummy, maxSize, threads), schedule);
    var s := Play(cfg, Init(dummy, maxSize, threads), schedule).value;
    LiveOk(s.q);
    forall t | 0 <= t < |s.pcs| ensures s.pcs[t] != GetDone(None) {
      assert PcOk(s.q, s.mEvent, s.pcs[t]);
    }
  }

  // ---------------------------------------------------------------- the atomic queue behind it

  /** The event a thread has offered to Put and that is not yet in the queue. */
  function Offered<T>(pc: PC<T>): Option<T>
  {
    match pc
    case PutLock(e) => Some(e)
    case PutCopy(e) => Some(e)
    case PutPush(e, w) => if w.WTail? || w.WDone? then None else Some(e)
    case _ => None
  }

  /** The event a thread has taken out of the queue and not yet returned from Get. */
  function Carried<T>(pc: PC<T>): Option<T>
  {
    match pc
    case GetPop(_, due) => due
    case GetUnlock(out) => out
    case GetDone(out) => out
    case _ => None
  }

  /** The current (or just finished) Put of the thread has put its event into the queue. */
  predicate Accepted<T>(pc: PC<T>)
  {
    (pc.PutPush? && pc.w.WTail?) || (pc.PutUnlock? && pc.ok) || pc.PutGive? || (pc.PutDone? && pc.ok)
  }

  datatype Effect<T> = Nothing | Enqueue(e: T) | Dequeue(v: T) | Reject(e: T)

  /** What thread t's next step does to the queue seen as one atomic FIFO. */
  function EffectOf<T>(s: State<T>, t: nat): Effect<T>
    requires t < |s.pcs|
  {
    match s.pcs[t]
    case PutPush(e, w) =>
      if w.WHook? then Enqueue(e) else if w.WCheck? && s.q.maxSize < |s.q.nodes| then Reject(e) else Nothing
    case GetPop(r, _) => if r.RSet? && Live(s.q) != [] then Dequeue(Live(s.q)[0]) else Nothing
    case _ => Nothing
  }

  /** Step s -> s' of thread t does to the atomic FIFO, and to t's own call, what EffectOf says. */
  ghost predicate Refines<T>(s: State<T>, t: nat, s': State<T>)
    requires t < |s.pcs|
  {
    && |s'.pcs| == |s.pcs| && s'.pcs == s.pcs[t := s'.pcs[t]] && QOk(s'.q)
    && var pc, pc' := s.pcs[t], s'.pcs[t];
    match EffectOf(s, t)
    case Nothing =>
      && s'.pushed == s.pushed && s'.popped == s.popped && Live(s'.q) == Live(s.q)
      && Offered(pc') == Offered(pc) && Carried(pc') == Carried(pc) && (Accepted(pc') <==> Accepted(pc))
    case Enqueue(e) =>
      && |Live(s.q)| < s.q.maxSize && Live(s'.q) == Live(s.q) + [e]
      && s'.pushed == s.pushed + [e] && s'.popped == s.popped
      && Offered(pc) == Some(e) && Offered(pc') == None && Accepted(pc') && !Accepted(pc)
      && Carried(pc) == None && Carried(pc') == None
    case Dequeue(v) =>
      && Live(s.q) == [v] + Live(s'.q)
      && s'.pushed == s.pushed && s'.popped == s.popped + [v]
      && Carried(pc) == None && Carried(pc') == Some(v)
      && Offered(pc) == None && Offered(pc') == None && !Accepted(pc) && !Accepted(pc')
    case Reject(e) =>
      && s'.pushed == s.pushed && s'.popped == s.popped && Live(s'.q) == Live(s.q)
      && Offered(pc) == Some(e) && Offered(pc') == None && pc' == PutUnlock(e, false) && !Accepted(pc)
      && Carried(pc) == None && Carried(pc') == None
  }

  lemma PushEffect<T>(cfg: Config, s: State<T>, t: nat)
    requires t < |s.pcs| && s.pcs[t].PutPush? && QOk(s.q) && PcOk(s.q, s.mEvent, s.pcs[t])
    ensures Run(cfg, s, t).Moved? && Refines(s, t, Run(cfg, s, t).state)
  {
    hide Live, Pos, Values;
    var PutPush(e, w) := s.pcs[t];
    WriterStep(s.q, w, s.mEvent, RBegin);
    WriterLive(s.q, w, s.mEvent);
    LiveOk(s.q);
    var n := WStep(s.q, w, s.mEvent).value;
    var pc' := if n.1.WDone? then PutUnlock(e, n.1.ok) else PutPush(e, n.1);
    var s' := At(s, t, pc').(q := n.0, pushed := s.pushed + if w.WHook? then [s.mEvent] else []);
    assert Run(cfg, s, t) == Moved(s');
    assert !w.WHook? ==> s.pushed + [] == s.pushed;
    assert !w.WHook? ==> Live(s.q) + [] == Live(s.q);
  }

  lemma PopEffect<T>(cfg: Config, s: State<T>, t: nat)
    requires t < |s.pcs| && s.pcs[t].GetPop? && QOk(s.q) && PcOk(s.q, s.mEvent, s.pcs[t])
    ensures Run(cfg, s, t).Moved? && Refines(s, t, Run(cfg, s, t).state)
  {
    hide Live, Pos, Values;
    var GetPop(r, due) := s.pcs[t];
    ReaderStep(s.q, r, WBegin);
    ReaderLive(s.q, r);
    if r.RSet? { assert Live(s.q) == [Live(s.q)[0]] + Live(s.q)[1..]; }
    if r.RCmp? { assert s.q.tail == End; }
  }

  /**
   * The concurrent queue refines an atomic bounded FIFO: each step either appends the event its
   * own caller passed to Put, or takes the oldest event for its own caller, or turns its
   * caller's event away, or changes nothing a caller could see.
   */
  lemma StepRefinesFifo<T>(cfg: Config, s: State<T>, t: nat)
    requires Inv(cfg, s) && t < |s.pcs| && Run(cfg, s, t).Moved?
    ensures Refines(s, t, Run(cfg, s, t).state)
  {
    hide Live, Pos, Values, Sum, Exclusive;
    assert PcOk(s.q, s.mEvent, s.pcs[t]);
    if s.pcs[t].PutPush? {
      PushEffect(cfg, s, t);
    } else if s.pcs[t].GetPop? {
      PopEffect(cfg, s, t);
    } else {
      RunKeepsSize(cfg, s, t);
    }
  }

  /** A call stays a Put, or a Get, until it is finished. */
  lemma RunPhase<T>(cfg: Config, s: State<T>, t: nat)
    requires t < |s.pcs| && Run(cfg, s, t).Moved?
    ensures var s' := Run(cfg, s, t).state;
            && |s'.pcs| == |s.pcs|
            && (InPut(s.pcs[t]) ==> InPut(s'.pcs[t]) || s'.pcs[t].PutDone?)
            && (InGet(s.pcs[t]) ==> InGet(s'.pcs[t]) || s'.pcs[t].GetDone?)
            && (InPut(s.pcs[t]) || InGet(s.pcs[t]))
  {
  }

  /** The thread is in, or just through, a Put of the event. */
  predicate Putting<T(==)>(pc: PC<T>, e: T)
  {
    (InPut(pc) || pc.PutDone?) && (Offered(pc) == None || Offered(pc) == Some(e))
  }

  /** The thread is in, or just through, a Get, or about to begin one. */
  predicate Getting<T>(pc: PC<T>)
  {
    pc.Idle? || InGet(pc) || pc.GetDone?
  }

  /** All that whoever uses the queue has to know of one step inside a call. */
  lemma StepOfCall<T>(cfg: Config, s: State<T>, t: nat)
    requires Inv(cfg, s) && t < |s.pcs| && Run(cfg, s, t).Moved?
    ensures var s' := Run(cfg, s, t).state;
            && Inv(cfg, s') && Refines(s, t, s')
            && (InPut(s.pcs[t]) || InGet(s.pcs[t]))
            && (InPut(s.pcs[t]) ==> InPut(s'.pcs[t]) || s'.pcs[t].PutDone?)
            && (forall e :: InPut(s.pcs[t]) && Putting(s.pcs[t], e) ==> Putting(s'.pcs[t], e))
            && (InGet(s.pcs[t]) ==> Getting(s'.pcs[t]) && !s'.pcs[t].Idle?)
  {
    hide Inv, QOk, Run, Live;
    RunKeepsInv(cfg, s, t);
    StepRefinesFifo(cfg, s, t);
    RunPhase(cfg, s, t);
  }

  /** How often an event is in the queue changes only by being put in or taken out. */
  lemma CountMoves<T>(s: State<T>, t: nat, s': State<T>, e: T)
    requires t < |s.pcs| && Refines(s, t, s')
    ensures multiset(Live(s'.q))[e] == multiset(Live(s.q))[e]
                                       + (if EffectOf(s, t) == Enqueue(e) then 1 else 0) - (if EffectOf(s, t) == Dequeue(e) then 1 else 0)
  {
    hide Live, QOk;
    match EffectOf(s, t)
    case Enqueue(x) => assert multiset(Live(s.q) + [x]) == multiset(Live(s.q)) + multiset{x};
    case Dequeue(x) => assert multiset([x] + Live(s'.q)) == multiset{x} + multiset(Live(s'.q));
    case _ =>
  }

  /** A finished Get has its event. */
  lemma GetHasEvent<T>(cfg: Config, s: State<T>, t: nat)
    requires Inv(cfg, s) && t < |s.pcs| && s.pcs[t].GetDone?
    ensures s.pcs[t].out.Some?
  {
    assert PcOk(s.q, s.mEvent, s.pcs[t]);
  }

  // ---------------------------------------------------------------- progress

  function WriterRank(w: WriterPC): int
  {
    match w case WBegin => 7 case WErase(_) => 6 case WCheck => 5 case WHook => 4 case WTail => 3 case WDone(_) => 2
  }

  function ReaderRank<T>(r: ReaderPC<T>): int
  {
    match r case RBegin => 7 case RNext(_) => 6 case RCmp(_) => 5 case RSet(_) => 4 case RCopy => 2 case RDone(_) => 1
  }

  /** How many steps a thread still makes inside its call, not counting the nodes it erases. */
  function Rank<T>(pc: PC<T>): int
  {
    match pc
    case Idle => 0
    case PutLock(_) => 9
    case PutCopy(_) => 8
    case PutPush(_, w) => WriterRank(w)
    case PutUnlock(_, _) => 2
    case PutGive(_) => 1
    case PutDone(_) => 0
    case GetTake => 9
    case GetLock => 8
    case GetPop(r, _) => ReaderRank(r)
    case GetUnlock(_) => 1
    case GetDone(_) => 0
  }

  /** Nodes that were popped and not yet erased. */
  function Dead<T>(q: Lfq<T>): int
  {
    if q.head.At? && q.nodes != [] then q.head.id - q.nodes[0].id else 0
  }

  lemma PushDecreases<T>(q: Lfq<T>, w: WriterPC, data: T)
    requires QOk(q) && WOk(q, w) && !w.WDone?
    ensures WStep(q, w, data).Some? && QOk(WStep(q, w, data).value.0)
    ensures var (q', w') := WStep(q, w, data).value;
            0 <= Dead(q') && Dead(q') + WriterRank(w') < Dead(q) + WriterRank(w) && (w'.WDone? ==> WriterRank(w) > 2)
  {
    WriterStep(q, w, data, RBegin);
  }

  lemma PopDecreases<T>(q: Lfq<T>, r: ReaderPC<T>)
    requires QOk(q) && ROk(q, r) && !r.RDone?
    ensures RStep(q, r).Some? && QOk(RStep(q, r).value.0)
    ensures var (q', r') := RStep(q, r).value;
            0 <= Dead(q') && Dead(q') + ReaderRank(r') < Dead(q) + ReaderRank(r)
  {
    ReaderStep(q, r, WBegin);
  }

  lemma CallDecreases<T>(cfg: Config, s: State<T>, t: nat)
    requires t < |s.pcs| && QOk(s.q) && PcOk(s.q, s.mEvent, s.pcs[t]) && Run(cfg, s, t).Moved?
    requires s.pcs[t].PutPush? || s.pcs[t].GetPop?
    ensures var s' := Run(cfg, s, t).state;
            && |s'.pcs| == |s.pcs|
            && 0 <= Dead(s'.q) && Dead(s'.q) + Rank(s'.pcs[t]) < Dead(s.q) + Rank(s.pcs[t])
  {
    if s.pcs[t].PutPush? {
      PushDecreases(s.q, s.pcs[t].w, s.mEvent);
    } else {
      PopDecreases(s.q, s.pcs[t].r);
    }
  }

  lemma PlainDecreases<T>(cfg: Config, s: State<T>, t: nat)
    requires t < |s.pcs| && Run(cfg, s, t).Moved? && !s.pcs[t].PutPush? && !s.pcs[t].GetPop?
    ensures var s' := Run(cfg, s, t).state;
            |s'.pcs| == |s.pcs| && Dead(s'.q) == Dead(s.q) && Rank(s'.pcs[t]) < Rank(s.pcs[t])
  {
  }

  /** Every step inside a call makes this smaller: what its thread has yet to do, and the nodes
      anybody has yet to erase. */
  lemma RunDecreases<T>(cfg: Config, s: State<T>, t: nat)
    requires Inv(cfg, s) && t < |s.pcs| && Run(cfg, s, t).Moved?
    ensures var s' := Run(cfg, s, t).state;
            && |s'.pcs| == |s.pcs|
            && 0 <= Dead(s'.q) && Dead(s'.q) + Rank(s'.pcs[t]) < Dead(s.q) + Rank(s.pcs[t])
  {
    assert PcOk(s.q, s.mEvent, s.pcs[t]);
    if s.pcs[t].PutPush? || s.pcs[t].GetPop? {
      CallDecreases(cfg, s, t);
    } else {
      PlainDecreases(cfg, s, t);
    }
  }

  /** How many steps at most a thread still makes inside its call. A push erases up to where the
      head was when it began. */
  function Budget<T>(q: Lfq<T>, pc: PC<T>): int
  {
    match pc
    case PutLock(_) => Rank(pc) + q.maxSize
    case PutCopy(_) => Rank(pc) + q.maxSize
    case PutPush(_, WBegin) => Rank(pc) + q.maxSize
    case PutPush(_, WErase(last)) => Rank(pc) + if last.At? && q.nodes != [] then last.id - q.nodes[0].id else 0
    case _ => Rank(pc)
  }

  lemma PushShrinks<T>(q: Lfq<T>, w: WriterPC, data: T, e: T)
    requires QOk(q) && WOk(q, w) && !w.WDone?
    ensures WStep(q, w, data).Some?
    ensures var (q', w') := WStep(q, w, data).value;
            0 <= Budget(q', if w'.WDone? then PutUnlock(e, w'.ok) else PutPush(e, w')) < Budget(q, PutPush(e, w))
  {
    WriterStep(q, w, data, RBegin);
  }

  lemma PopShrinks<T>(q: Lfq<T>, r: ReaderPC<T>, due: Option<T>, due': Option<T>)
    requires QOk(q) && ROk(q, r) && !r.RDone?
    ensures RStep(q, r).Some?
    ensures var (q', r') := RStep(q, r).value;
            0 <= Budget(q', if r'.RDone? then GetUnlock(r'.out) else GetPop(r', due')) < Budget(q, GetPop(r, due))
  {
    ReaderStep(q, r, WBegin);
  }

  lemma PlainShrinks<T>(cfg: Config, s: State<T>, t: nat)
    requires t < |s.pcs| && Run(cfg, s, t).Moved? && !s.pcs[t].PutPush? && !s.pcs[t].GetPop?
    ensures var s' := Run(cfg, s, t).state;
            |s'.pcs| == |s.pcs| && 0 <= Budget(s'.q, s'.pcs[t]) < Budget(s.q, s.pcs[t])
  {
  }

  lemma OwnStepShrinks<T>(cfg: Config, s: State<T>, t: nat)
    requires Inv(cfg, s) && t < |s.pcs| && Run(cfg, s, t).Moved?
    ensures var s' := Run(cfg, s, t).state;
            |s'.pcs| == |s.pcs| && 0 <= Budget(s'.q, s'.pcs[t]) < Budget(s.q, s.pcs[t])
  {
    hide Live, Pos, Values, Sum, Exclusive, Budget, WStep;
    assert PcOk(s.q, s.mEvent, s.pcs[t]);
    if s.pcs[t].PutPush? {
      PushShrinks(s.q, s.pcs[t].w, s.mEvent, s.pcs[t].e);
    } else if s.pcs[t].GetPop? {
      PopShrinks(s.q, s.pcs[t].r, s.pcs[t].due, s.pcs[t].due);
      if s.pcs[t].r.RSet? {
        PopShrinks(s.q, s.pcs[t].r, s.pcs[t].due, Deref(RStep(s.q, s.pcs[t].r).value.0, RStep(s.q, s.pcs[t].r).value.0.head));
      }
    } else {
      PlainShrinks(cfg, s, t);
    }
  }

  /** Whatever another thread does. */
  lemma OthersLeaveBudget<T>(cfg: Config, s: State<T>, t: nat, u: nat, a: Action<T>)
    requires Inv(cfg, s) && t < |s.pcs| && u < |s.pcs| && t != u && Act(cfg, s, u, a).Moved?
    ensures var s' := Act(cfg, s, u, a).state;
            |s'.pcs| == |s.pcs| && s'.pcs[t] == s.pcs[t] && Budget(s'.q, s.pcs[t]) == Budget(s.q, s.pcs[t])
  {
    hide Live, Pos, Values, Sum, QOk, Exclusive;
    if Writing(s.pcs[t]) && Writing(s.pcs[u]) { WriterAlone(cfg, s, t, u); }
  }

  /** How many steps thread t makes in a run before the call it is in is over. */
  function StepsInCall<T>(cfg: Config, s: State<T>, t: nat, schedule: seq<(nat, Action<T>)>): nat
    requires t < |s.pcs|
    decreases |schedule|
  {
    if schedule == [] || !(InPut(s.pcs[t]) || InGet(s.pcs[t])) then 0
    else if schedule[0].0 >= |s.pcs| then StepsInCall(cfg, s, t, schedule[1..])
    else match Act(cfg, s, schedule[0].0, schedule[0].1)
         case Blocked => StepsInCall(cfg, s, t, schedule[1..])
         case Fault => 0
         case Moved(s') =>
           (if schedule[0].0 == t then 1 else 0) + if t < |s'.pcs| then StepsInCall(cfg, s', t, schedule[1..]) else 0
  }

  lemma {:induction false} WithinBudget<T>(cfg: Config, s: State<T>, t: nat, schedule: seq<(nat, Action<T>)>)
    requires Inv(cfg, s) && t < |s.pcs|
    ensures StepsInCall(cfg, s, t, schedule) <= Budget(s.q, s.pcs[t])
    decreases |schedule|
  {
    hide Inv, Run, Budget;
    BudgetOk(cfg, s, t);
    if schedule != [] && (InPut(s.pcs[t]) || InGet(s.pcs[t])) {
      var (u, a) := schedule[0];
      if u < |s.pcs| && Act(cfg, s, u, a).Moved? {
        var s' := Act(cfg, s, u, a).state;
        ActKeepsInv(cfg, s, u, a);
        if u == t { OwnStepShrinks(cfg, s, t); } else { OthersLeaveBudget(cfg, s, t, u, a); }
        WithinBudget(cfg, s', t, schedule[1..]);
      } else {
        WithinBudget(cfg, s, t, schedule[1..]);
      }
    }
  }

  lemma BudgetOk<T>(cfg: Config, s: State<T>, t: nat)
    requires Inv(cfg, s) && t < |s.pcs|
    ensures 0 <= Budget(s.q, s.pcs[t]) <= 9 + s.q.maxSize
  {
    hide Live, Pos, Values, Sum, Exclusive;
    assert PcOk(s.q, s.mEvent, s.pcs[t]);
  }

  /**
   * No call goes on for ever: whatever the other threads do meanwhile, a Put or Get is over after
   * at most maxSize + 9 steps of its own thread.
   */
  lemma CallIsShort<T>(cfg: Config, s: State<T>, t: nat, schedule: seq<(nat, Action<T>)>)
    requires Inv(cfg, s) && t < |s.pcs|
    ensures StepsInCall(cfg, s, t, schedule) <= 9 + s.q.maxSize
  {
    WithinBudget(cfg, s, t, schedule);
    BudgetOk(cfg, s, t);
  }

  /** A thread that holds a lock, or is past its lock, is never kept waiting. */
  lemma InsideNeverWaits<T>(cfg: Config, s: State<T>, t: nat)
    requires Inv(cfg, s) && t < |s.pcs|
    requires Writing(s.pcs[t]) || Reading(s.pcs[t]) || s.pcs[t].PutGive?
    ensures Run(cfg, s, t).Moved?
  {
    hide Live, Pos, Values, Sum;
    RunKeepsInv(cfg, s, t);
  }

  lemma WaitsOnlyInTake<T>(cfg: Config, s: State<T>, t: nat)
    requires Inv(cfg, s) && t < |s.pcs|
    requires forall u :: 0 <= u < |s.pcs| ==> !Run(cfg, s, u).Moved?
    ensures !InPut(s.pcs[t]) && (InGet(s.pcs[t]) ==> s.pcs[t].GetTake?)
    ensures s.pcs[t].GetTake? ==> Permits(s) <= 0
  {
    assert s.writer == None by {
      if s.writer.Some? { InsideNeverWaits(cfg, s, s.writer.value); }
    }
    assert s.reader == None by {
      if s.reader.Some? { InsideNeverWaits(cfg, s, s.reader.value); }
    }
    assert !Run(cfg, s, t).Moved?;
    if Writing(s.pcs[t]) || Reading(s.pcs[t]) || s.pcs[t].PutGive? { InsideNeverWaits(cfg, s, t); }
  }

  /**
   * If no thread can move, each is between calls or waits in Take, and it waits there only for
   * lack of events: the queue is empty.
   */
  lemma StuckMeansEmpty<T>(cfg: Config, s: State<T>)
    requires Inv(cfg, s)
    requires forall t :: 0 <= t < |s.pcs| ==> !Run(cfg, s, t).Moved?
    ensures forall t :: 0 <= t < |s.pcs| ==> !InPut(s.pcs[t]) && (InGet(s.pcs[t]) ==> s.pcs[t].GetTake?)
    ensures (exists t :: 0 <= t < |s.pcs| && s.pcs[t].GetTake?) ==> Live(s.q) == [] && Permits(s) == 0
  {
    forall t | 0 <= t < |s.pcs|
      ensures !InPut(s.pcs[t]) && (InGet(s.pcs[t]) ==> s.pcs[t].GetTake?)
    {
      WaitsOnlyInTake(cfg, s, t);
    }
    SumZero(PushedNotGiven, s.pcs);
    SumZero(TakenNotPopped, s.pcs);
    if t :| 0 <= t < |s.pcs| && s.pcs[t].GetTake? {
      WaitsOnlyInTake(cfg, s, t);
    }
  }

  /**
   * A Put that no other Put disturbs, on a queue without consumed nodes: it never has to wait, it
   * ends, and it is turned away only if the queue is full.
   */
  lemma PutAlone<T>(cfg: Config, s: State<T>, t: nat)
    requires Inv(cfg, s) && t < |s.pcs| && InPut(s.pcs[t]) && Dead(s.q) == 0
    requires forall u :: 0 <= u < |s.pcs| && u != t ==> !InPut(s.pcs[u])
    ensures Run(cfg, s, t).Moved?
    ensures var s' := Run(cfg, s, t).state;
            && Inv(cfg, s') && Refines(s, t, s') && (InPut(s'.pcs[t]) || s'.pcs[t].PutDone?)
            && Dead(s'.q) == 0 && s'.popped == s.popped && s'.q.maxSize == s.q.maxSize && Rank(s'.pcs[t]) < Rank(s.pcs[t])
    ensures EffectOf(s, t).Reject? ==> s.q.maxSize <= |Live(s.q)|
    ensures forall e :: Putting(s.pcs[t], e) ==> Putting(Run(cfg, s, t).state.pcs[t], e)
  {
    PutNeverWaits(cfg, s, t);
    StepOfCall(cfg, s, t);
    RunDecreases(cfg, s, t);
    RunKeepsSize(cfg, s, t);
    NothingErased(cfg, s, t);
    hide Inv, Live, QOk, Run, Dead, Rank;
  }

  lemma PutNeverWaits<T>(cfg: Config, s: State<T>, t: nat)
    requires Inv(cfg, s) && t < |s.pcs| && InPut(s.pcs[t])
    requires forall u :: 0 <= u < |s.pcs| && u != t ==> !InPut(s.pcs[u])
    ensures Run(cfg, s, t).Moved?
  {
    hide Live, Pos, Values, Sum;
    RunKeepsInv(cfg, s, t);
    if s.writer.Some? { assert Writing(s.pcs[s.writer.value]); }
  }

  lemma NothingErased<T>(cfg: Config, s: State<T>, t: nat)
    requires Inv(cfg, s) && t < |s.pcs| && InPut(s.pcs[t]) && Dead(s.q) == 0 && Run(cfg, s, t).Moved?
    ensures Dead(Run(cfg, s, t).state.q) == 0 && Run(cfg, s, t).state.popped == s.popped
    ensures EffectOf(s, t).Reject? ==> s.q.maxSize <= |Live(s.q)|
  {
    hide Live, Pos, Values, Sum, Exclusive;
    assert PcOk(s.q, s.mEvent, s.pcs[t]);
    LiveOk(s.q);
    if s.pcs[t].PutPush? { WriterStep(s.q, s.pcs[t].w, s.mEvent, RBegin); }
  }

  // ---------------------------------------------------------------- more threads

  function Spawn<T>(s: State<T>): State<T>
  {
    s.(pcs := s.pcs + [Idle])
  }

  lemma SpawnKeepsInv<T>(cfg: Config, s: State<T>)
    requires Inv(cfg, s)
    ensures Inv(cfg, Spawn(s))
  {
    hide Live, Pos, Values, QOk, Sum;
    SumAppend(PushedNotGiven, s.pcs, Idle);
    SumAppend(TakenNotPopped, s.pcs, Idle);
  }
}
