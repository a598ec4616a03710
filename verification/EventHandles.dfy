/**
 * What XLThreadEvent does to the counted handle of its buffer. A handle may be on no counter, on
 * the counter of a buffer, or on a counter that was made for null, which is what m_pData = 0
 * makes; a counter of null counts nobody.
 */
module EventHandles {
  import opened Basics
  import opened HandleRuns

  datatype Kind = NoCounter | OfNull | Buffer

  ghost function KindOf<H, C, O>(s: Heap<H, C, O>, e: H): Kind
    requires e in s.handles
  {
    if s.handles[e] == None then NoCounter else if WrapsNull(s, e) then OfNull else Buffer
  }

  /** Reset only lets go of a buffer. */
  function AfterReset(k: Kind): Kind
  {
    if k.Buffer? then OfNull else k
  }

  /** SetData and AddData, with something to hold or without. */
  function AfterSetData(k: Kind, some: bool): Kind
  {
    if some then Buffer else AfterReset(k)
  }

  /** ReadFrom, once the length has passed its check. */
  function AfterReadFrom(some: bool): Kind
  {
    if some then Buffer else OfNull
  }

  /** `c` and `d` are where new counters are put, `buffer` is a new buffer, if the call makes one;
      `tmp` is AddData's own handle. Sized is construction from a size, GetPtr is GetDataPtr, whose
      result `e` is a handle of its own, and DropPtr the end of that handle. */
  datatype EventOp<H, C, O> =
    | Create(e: H) | Sized(e: H, c: C, buffer: Option<O>) | GetPtr(e: H, from: H) | DropPtr(e: H)
    | CopyEvent(e: H, from: H) | AssignEvent(e: H, from: H) | Reset(e: H, c: C)
    | SetBuffer(e: H, c: C, d: C, buffer: Option<O>) | AddBuffer(e: H, tmp: H, c: C, d: C, buffer: Option<O>)
    | Read(e: H, c: C, d: C, buffer: Option<O>) | Destroy(e: H, c: C)

  ghost function Then<H, C, O>(s: Option<Heap<H, C, O>>, op: Op<H, C, O>): Option<Heap<H, C, O>>
  {
    if s == None then None else Step(s.value, op)
  }

  /** Reset looks at the handle's counter, and gives a buffer up by m_pData = 0. */
  ghost function ResetHandle<H, C, O>(s: Heap<H, C, O>, e: H, c: C): Option<Heap<H, C, O>>
    requires e in s.handles
  {
    match s.handles[e]
    case None => Some(s)
    case Some(at) =>
      if at !in s.counters then None
      else if s.counters[at].obj.Some? then Step(s, SetData(e, c, None))
      else Some(s)
  }

  ghost function SetHandle<H, C, O>(s: Heap<H, C, O>, e: H, c: C, d: C, buffer: Option<O>): Option<Heap<H, C, O>>
    requires e in s.handles
  {
    if buffer == None then ResetHandle(s, e, c) else Then(ResetHandle(s, e, c), SetData(e, d, buffer))
  }

  /** One call; None if it uses a deleted counter. What cannot be called does nothing. */
  ghost function Perform<H, C, O>(s: Heap<H, C, O>, op: EventOp<H, C, O>): Option<Heap<H, C, O>>
  {
    match op
    case Create(e) => Step(s, Empty(e))
    case Sized(e, c, buffer) => if e in s.handles then Some(s) else Then(Step(s, Empty(e)), SetData(e, c, buffer))
    case GetPtr(e, from) => Step(s, Copy(e, from))
    case DropPtr(e) => Step(s, Drop(e))
    case CopyEvent(e, from) => if e in s.handles || from !in s.handles then Some(s) else Then(Step(s, Empty(e)), Assign(e, from))
    case AssignEvent(e, from) => Step(s, Assign(e, from))
    case Reset(e, c) => if e in s.handles then ResetHandle(s, e, c) else Some(s)
    case SetBuffer(e, c, d, buffer) => if e in s.handles then SetHandle(s, e, c, d, buffer) else Some(s)
    case AddBuffer(e, tmp, c, d, buffer) =>
      if e !in s.handles || tmp in s.handles then Some(s)
      else if KindOf(s, e).Buffer? && buffer.Some? then Then(Then(Step(s, New(tmp, d, buffer)), Assign(e, tmp)), Drop(tmp))
      else SetHandle(s, e, c, d, buffer)
    case Read(e, c, d, buffer) =>
      if e !in s.handles then Some(s)
      else if buffer == None then Step(s, SetData(e, c, None))
      else SetHandle(s, e, c, d, buffer)
    case Destroy(e, c) => if e in s.handles then Then(ResetHandle(s, e, c), Drop(e)) else Some(s)
  }

  ghost function PerformAll<H, C, O>(s: Heap<H, C, O>, ops: seq<EventOp<H, C, O>>): Option<Heap<H, C, O>>
    decreases |ops|
  {
    if ops == [] then Some(s)
    else match Perform(s, ops[0]) case None => None case Some(s') => PerformAll(s', ops[1..])
  }

  /** New buffers are new, and events on a counter of null are not copied. */
  ghost predicate Permitted<H, C, O>(s: Heap<H, C, O>, op: EventOp<H, C, O>)
  {
    match op
    case CopyEvent(e, from) => from in s.handles ==> !KindOf(s, from).OfNull?
    case AssignEvent(e, from) => e == from || (from in s.handles ==> !KindOf(s, from).OfNull?)
    case GetPtr(e, from) => from in s.handles ==> !KindOf(s, from).OfNull?
    case Sized(_, _, buffer) => buffer.Some? ==> buffer.value !in s.adopted
    case SetBuffer(_, _, _, buffer) => buffer.Some? ==> buffer.value !in s.adopted
    case AddBuffer(_, _, _, _, buffer) => buffer.Some? ==> buffer.value !in s.adopted
    case Read(_, _, _, buffer) => buffer.Some? ==> buffer.value !in s.adopted
    case _ => true
  }

  ghost predicate AllPermitted<H, C, O>(s: Heap<H, C, O>, ops: seq<EventOp<H, C, O>>)
    decreases |ops|
  {
    ops == [] || (Permitted(s, ops[0]) && (Perform(s, ops[0]).Some? ==> AllPermitted(Perform(s, ops[0]).value, ops[1..])))
  }

  lemma ResetKeepsGood<H, C, O>(s: Heap<H, C, O>, e: H, c: C)
    requires Good(s) && e in s.handles
    ensures ResetHandle(s, e, c).Some?
    ensures var s' := ResetHandle(s, e, c).value; Good(s') && s'.handles.Keys == s.handles.Keys && s'.adopted <= s.adopted
  {
    HandleFits(s, e);
    hide Good, Step;
    StepFits(s, SetData(e, c, None));
  }

  lemma HandleFits<H, C, O>(s: Heap<H, C, O>, e: H)
    requires Good(s) && e in s.handles
    ensures s.handles[e].Some? ==> s.handles[e].value in s.counters
  {
  }

  /** A permitted step on handles: the state stays good. */
  lemma StepFits<H, C, O>(s: Heap<H, C, O>, op: Op<H, C, O>)
    requires Good(s) && Allowed(s, op)
    ensures Step(s, op).Some? && Good(Step(s, op).value)
    ensures Step(s, op).value.handles.Keys == HandlesAfter(s, op).Keys
    ensures Step(s, op).value.adopted <= s.adopted + if (op.New? || op.SetData?) && op.obj.Some? then {op.obj.value} else {}
  {
    StepKeepsGood(s, op);
    StepMoves(s, op);
    hide Good, Step, Allowed;
    StepAdopts(s, op);
  }

  lemma StepAdopts<H, C, O>(s: Heap<H, C, O>, op: Op<H, C, O>)
    requires Step(s, op).Some?
    ensures Step(s, op).value.adopted <= s.adopted + if (op.New? || op.SetData?) && op.obj.Some? then {op.obj.value} else {}
  {
  }

  lemma SetKeepsGood<H, C, O>(s: Heap<H, C, O>, e: H, c: C, d: C, buffer: Option<O>)
    requires Good(s) && e in s.handles && (buffer.Some? ==> buffer.value !in s.adopted)
    ensures SetHandle(s, e, c, d, buffer).Some?
    ensures var s' := SetHandle(s, e, c, d, buffer).value; Good(s') && s'.handles.Keys == s.handles.Keys
  {
    hide Good, Step, ResetHandle;
    ResetKeepsGood(s, e, c);
    if buffer.Some? { StepFits(ResetHandle(s, e, c).value, HandleRuns.SetData(e, d, buffer)); }
  }

  lemma AddKeepsGood<H, C, O>(s: Heap<H, C, O>, e: H, tmp: H, d: C, buffer: O)
    requires Good(s) && e in s.handles && tmp !in s.handles && buffer !in s.adopted
    ensures var s' := Then(Then(Step(s, New(tmp, d, Some(buffer))), Assign(e, tmp)), Drop(tmp));
            s'.Some? && Good(s'.value) && s'.value.handles.Keys == s.handles.Keys
  {
    hide Good;
    if d !in s.counters { AddMoves(s, e, tmp, d, buffer); }
  }

  lemma PerformKeepsGood<H, C, O>(s: Heap<H, C, O>, op: EventOp<H, C, O>)
    requires Good(s) && Permitted(s, op)
    ensures Perform(s, op).Some? && Good(Perform(s, op).value)
  {
    hide Good, ResetHandle, SetHandle;
    match op
    case Create(e) => StepFits(s, Empty(e));
    case Sized(e, c, buffer) =>
      if e !in s.handles {
        StepFits(s, Empty(e));
        StepFits(Step(s, Empty(e)).value, HandleRuns.SetData(e, c, buffer));
      }
    case GetPtr(e, from) => if from in s.handles { HandleFits(s, from); } StepFits(s, Copy(e, from));
    case DropPtr(e) => StepFits(s, Drop(e));
    case CopyEvent(e, from) =>
      if e !in s.handles && from in s.handles {
        StepFits(s, Empty(e));
        HandleFits(s, from);
        StepFits(Step(s, Empty(e)).value, Assign(e, from));
      }
    case AssignEvent(e, from) => if from in s.handles { StepFits(s, Assign(e, from)); }
    case Reset(e, c) => if e in s.handles { ResetKeepsGood(s, e, c); }
    case SetBuffer(e, c, d, buffer) => if e in s.handles { SetKeepsGood(s, e, c, d, buffer); }
    case AddBuffer(e, tmp, c, d, buffer) =>
      if e in s.handles && tmp !in s.handles {
        if KindOf(s, e).Buffer? && buffer.Some? { AddKeepsGood(s, e, tmp, d, buffer.value); } else { SetKeepsGood(s, e, c, d, buffer); }
      }
    case Read(e, c, d, buffer) =>
      if e in s.handles {
        if buffer == None { StepFits(s, HandleRuns.SetData(e, c, None)); } else { SetKeepsGood(s, e, c, d, buffer); }
      }
    case Destroy(e, c) => if e in s.handles { DestroyKeepsGood(s, e, c); }
  }

  lemma DestroyKeepsGood<H, C, O>(s: Heap<H, C, O>, e: H, c: C)
    requires Good(s) && e in s.handles
    ensures Perform(s, Destroy(e, c)).Some? && Good(Perform(s, Destroy(e, c)).value)
  {
    hide Good, ResetHandle, Step;
    ResetKeepsGood(s, e, c);
    StepFits(ResetHandle(s, e, c).value, Drop(e));
  }

  lemma {:induction false} RunKeepsGood<H, C, O>(s: Heap<H, C, O>, ops: seq<EventOp<H, C, O>>)
    requires Good(s) && AllPermitted(s, ops)
    ensures PerformAll(s, ops).Some? && Good(PerformAll(s, ops).value)
    decreases |ops|
  {
    hide Good, Perform, Permitted;
    if ops != [] {
      PerformKeepsGood(s, ops[0]);
      RunKeepsGood(Perform(s, ops[0]).value, ops[1..]);
    }
  }

  /**
   * Over any run of events in which none on a counter of null is copied or assigned from: no
   * deleted counter is used; a buffer lives as long as an event refers to it, is deleted once, and
   * is deleted when no event is left.
   */
  lemma {:induction false} BuffersLiveLongEnough<H, C, O>(ops: seq<EventOp<H, C, O>>)
    requires AllPermitted(Nothing<H, C, O>(), ops)
    ensures PerformAll(Nothing<H, C, O>(), ops).Some?
    ensures var s := PerformAll(Nothing<H, C, O>(), ops).value;
            && (forall e :: e in s.handles && KindOf(s, e).Buffer? ==>
                              && s.handles[e].value in s.counters && s.counters[s.handles[e].value].obj.Some?
                              && s.counters[s.handles[e].value].obj.value !in s.freed)
            && (forall i, j :: 0 <= i < j < |s.freed| ==> s.freed[i] != s.freed[j])
            && (s.handles.Keys == {} ==> forall o :: o in s.adopted ==> o in s.freed)
  {
    RunKeepsGood(Nothing<H, C, O>(), ops);
    var s := PerformAll(Nothing<H, C, O>(), ops).value;
    forall e | e in s.handles ensures s.handles[e].Some? ==> s.handles[e].value in s.counters { HandleFits(s, e); }
    forall c | c in s.counters ensures s.handles.Keys != {} { SomeHandle(s, c); }
  }

  // ---------------------------------------------------------------- what each call leaves an event on

  /** The event is there, or yet to be made, as the call wants it; new counters are put where there is none. */
  ghost predicate Callable<H, C, O>(s: Heap<H, C, O>, op: EventOp<H, C, O>)
  {
    match op
    case Create(e) => e !in s.handles
    case Sized(e, c, _) => e !in s.handles && c !in s.counters
    case GetPtr(e, from) => e !in s.handles && from in s.handles
    case DropPtr(e) => e in s.handles
    case CopyEvent(e, from) => e !in s.handles && from in s.handles
    case AssignEvent(e, from) => e in s.handles && from in s.handles
    case Reset(e, c) => e in s.handles && c !in s.counters
    case SetBuffer(e, c, d, buffer) => e in s.handles && c !in s.counters && (buffer.Some? ==> d !in s.counters && c != d)
    case AddBuffer(e, tmp, c, d, buffer) =>
      e in s.handles && tmp !in s.handles && c !in s.counters && (buffer.Some? ==> d !in s.counters && c != d)
    case Read(e, c, d, buffer) => e in s.handles && c !in s.counters && (buffer.Some? ==> d !in s.counters && c != d)
    case Destroy(e, c) => e in s.handles && c !in s.counters
  }

  ghost function KeysAfter<H, C, O>(s: Heap<H, C, O>, op: EventOp<H, C, O>): set<H>
  {
    if op.Destroy? || op.DropPtr? then s.handles.Keys - {op.e} else s.handles.Keys + {op.e}
  }

  ghost function KindAfter<H, C, O>(s: Heap<H, C, O>, op: EventOp<H, C, O>, e: H): Kind
    requires Callable(s, op) && e in KeysAfter(s, op)
  {
    if op.e != e then KindOf(s, e)
    else
      match op
      case Create(_) => NoCounter
      case Sized(_, _, buffer) => AfterReadFrom(buffer.Some?)
      case GetPtr(_, from) => KindOf(s, from)
      case CopyEvent(_, from) => KindOf(s, from)
      case AssignEvent(_, from) => KindOf(s, from)
      case Reset(_, _) => AfterReset(KindOf(s, e))
      case SetBuffer(_, _, _, buffer) => AfterSetData(KindOf(s, e), buffer.Some?)
      case AddBuffer(_, _, _, _, buffer) => AfterSetData(KindOf(s, e), buffer.Some?)
      case Read(_, _, _, buffer) => AfterReadFrom(buffer.Some?)
  }

  /** What PerformMoves promises. */
  ghost predicate Moved<H, C, O>(s: Heap<H, C, O>, op: EventOp<H, C, O>)
    requires Callable(s, op)
  {
    && Perform(s, op).Some? && Good(Perform(s, op).value) && Perform(s, op).value.handles.Keys == KeysAfter(s, op)
    && forall e :: e in KeysAfter(s, op) ==> KindOf(Perform(s, op).value, e) == KindAfter(s, op, e)
  }

  /** Handles and objects tell what a handle is on. */
  lemma KindFrom<H, C, O>(s: Heap<H, C, O>, e: H, s': Heap<H, C, O>, f: H)
    requires Good(s) && Good(s') && e in s.handles && f in s'.handles && s'.handles[f] == s.handles[e]
    requires forall c :: c in s.counters && c in s'.counters ==> s'.counters[c].obj == s.counters[c].obj
    ensures KindOf(s', f) == KindOf(s, e)
  {
    HandleFits(s, e);
    HandleFits(s', f);
  }

  /** What a single handle operation leaves every handle on. */
  lemma StepKinds<H, C, O>(s: Heap<H, C, O>, op: Op<H, C, O>)
    requires Good(s) && Allowed(s, op) && ((op.New? || op.SetData?) ==> op.c !in s.counters)
    ensures Step(s, op).Some? && Good(Step(s, op).value) && Step(s, op).value.handles.Keys == HandlesAfter(s, op).Keys
    ensures var s' := Step(s, op).value;
            && s'.adopted <= s.adopted + (if (op.New? || op.SetData?) && op.obj.Some? then {op.obj.value} else {})
            && (forall e :: e in s'.handles && e in s.handles && (op.h != e || op.Empty? || op.New? || op.Copy?) ==> KindOf(s', e) == KindOf(s, e))
            && (op.SetData? && op.h in s.handles ==> KindOf(s', op.h) == AfterReadFrom(op.obj.Some?))
            && (op.New? && op.h !in s.handles ==> KindOf(s', op.h) == AfterReadFrom(op.obj.Some?))
            && (op.Assign? && op.h in s.handles && op.from in s.handles ==> KindOf(s', op.h) == KindOf(s, op.from))
            && (op.Copy? && op.h !in s.handles && op.from in s.handles ==> KindOf(s', op.h) == KindOf(s, op.from))
            && (op.Empty? && op.h !in s.handles ==> KindOf(s', op.h) == NoCounter)
            && (forall d :: d in s'.counters && d !in s.counters ==> (op.New? || op.SetData?) && op.c == d)
  {
    StepFits(s, op);
    StepMoves(s, op);
    var s' := Step(s, op).value;
    if ((op.New? && op.h !in s.handles) || (op.SetData? && op.h in s.handles)) { HandleFits(s', op.h); }
    hide Step, Allowed, Good;
    forall e | e in s'.handles && e in s.handles && (op.h != e || op.Empty? || op.New? || op.Copy?)
      ensures KindOf(s', e) == KindOf(s, e)
    {
      KindFrom(s, e, s', e);
    }
    if op.Assign? && op.h in s.handles && op.from in s.handles { KindFrom(s, op.from, s', op.h); }
    if op.Copy? && op.h !in s.handles && op.from in s.handles { KindFrom(s, op.from, s', op.h); }
  }

  /**
   * Each call leaves its own event on what the class says, and every other event where it was;
   * construction makes an event, and destruction ends one.
   */
  lemma PerformMoves<H, C, O>(s: Heap<H, C, O>, op: EventOp<H, C, O>)
    requires Good(s) && Permitted(s, op) && Callable(s, op)
    ensures Perform(s, op).Some? && Good(Perform(s, op).value) && Perform(s, op).value.handles.Keys == KeysAfter(s, op)
    ensures forall e :: e in KeysAfter(s, op) ==> KindOf(Perform(s, op).value, e) == KindAfter(s, op, e)
  {
    hide Perform, Good, Permitted, KindOf, KindAfter;
    match op
    case AddBuffer(_, _, _, _, _) => AddBufferMoves(s, op);
    case Read(_, _, _, _) => ReadMoves(s, op);
    case CopyEvent(_, _) => CopyEventMoves(s, op);
    case AssignEvent(_, _) => HandleOpMoves(s, op);
    case Create(_) => HandleOpMoves(s, op);
    case GetPtr(_, _) => HandleOpMoves(s, op);
    case DropPtr(_) => HandleOpMoves(s, op);
    case Sized(_, _, _) => SizedMoves(s, op);
    case Destroy(_, _) => DestroyMoves(s, op);
    case Reset(_, _) => BufferOpMoves(s, op);
    case SetBuffer(_, _, _, _) => BufferOpMoves(s, op);
  }

  lemma HandleOpMoves<H, C, O>(s: Heap<H, C, O>, op: EventOp<H, C, O>)
    requires Good(s) && Permitted(s, op) && Callable(s, op) && (op.AssignEvent? || op.Create? || op.GetPtr? || op.DropPtr?)
    ensures Moved(s, op)
  {
    hide Good, Step, KindOf;
    var h := match op
      case AssignEvent(e, from) => Assign(e, from)
      case Create(e) => Empty(e)
      case GetPtr(e, from) => Copy(e, from)
      case _ => Drop(op.e);
    assert Perform(s, op) == Step(s, h);
    if op.GetPtr? || op.AssignEvent? { NotNull(s, op.from); }
    StepKinds(s, h);
  }

  lemma NotNull<H, C, O>(s: Heap<H, C, O>, e: H)
    requires Good(s) && e in s.handles
    ensures WrapsNull(s, e) <==> KindOf(s, e).OfNull?
  {
    HandleFits(s, e);
  }

  lemma CopyEventMoves<H, C, O>(s: Heap<H, C, O>, op: EventOp<H, C, O>)
    requires Good(s) && Permitted(s, op) && Callable(s, op) && op.CopyEvent?
    ensures Moved(s, op)
  {
    hide Good, Step, KindOf, WrapsNull;
    StepKinds(s, Empty(op.e));
    var s1 := Step(s, Empty(op.e)).value;
    NotNull(s1, op.from);
    StepKinds(s1, Assign(op.e, op.from));
  }

  lemma SizedMoves<H, C, O>(s: Heap<H, C, O>, op: EventOp<H, C, O>)
    requires Good(s) && Permitted(s, op) && Callable(s, op) && op.Sized?
    ensures Moved(s, op)
  {
    hide Good, Step, KindOf;
    StepKinds(s, Empty(op.e));
    StepKinds(Step(s, Empty(op.e)).value, HandleRuns.SetData(op.e, op.c, op.buffer));
  }

  lemma DestroyMoves<H, C, O>(s: Heap<H, C, O>, op: EventOp<H, C, O>)
    requires Good(s) && Callable(s, op) && op.Destroy?
    ensures Moved(s, op)
  {
    hide Good, Step, KindOf, ResetHandle;
    ResetMoves(s, op.e, op.c);
    StepKinds(ResetHandle(s, op.e, op.c).value, Drop(op.e));
  }

  lemma BufferOpMoves<H, C, O>(s: Heap<H, C, O>, op: EventOp<H, C, O>)
    requires Good(s) && Permitted(s, op) && Callable(s, op) && (op.Reset? || op.SetBuffer?)
    ensures Moved(s, op)
  {
    hide Good, KindOf, ResetHandle, SetHandle;
    if op.Reset? { ResetMoves(s, op.e, op.c); }
    if op.SetBuffer? { SetMoves(s, op.e, op.c, op.d, op.buffer); }
  }

  lemma AddBufferMoves<H, C, O>(s: Heap<H, C, O>, op: EventOp<H, C, O>)
    requires Good(s) && Permitted(s, op) && Callable(s, op) && op.AddBuffer?
    ensures Moved(s, op)
  {
    hide Good, Step, KindOf, SetHandle;
    if KindOf(s, op.e).Buffer? && op.buffer.Some? {
      AddMoves(s, op.e, op.tmp, op.d, op.buffer.value);
    } else {
      SetMoves(s, op.e, op.c, op.d, op.buffer);
    }
  }

  lemma ReadMoves<H, C, O>(s: Heap<H, C, O>, op: EventOp<H, C, O>)
    requires Good(s) && Permitted(s, op) && Callable(s, op) && op.Read?
    ensures Moved(s, op)
  {
    hide Good, Step, KindOf, SetHandle;
    if op.buffer == None {
      StepKinds(s, HandleRuns.SetData(op.e, op.c, None));
    } else {
      SetMoves(s, op.e, op.c, op.d, op.buffer);
    }
  }

  lemma ResetMoves<H, C, O>(s: Heap<H, C, O>, e: H, c: C)
    requires Good(s) && e in s.handles && c !in s.counters
    ensures ResetHandle(s, e, c).Some?
    ensures var s' := ResetHandle(s, e, c).value;
            && Good(s') && s'.handles.Keys == s.handles.Keys && s'.adopted <= s.adopted && s'.counters.Keys <= s.counters.Keys + {c}
            && forall f :: f in s.handles ==> KindOf(s', f) == if f == e then AfterReset(KindOf(s, e)) else KindOf(s, f)
  {
    HandleFits(s, e);
    StepKinds(s, HandleRuns.SetData(e, c, None));
    hide Good, Step;
  }

  lemma SetMoves<H, C, O>(s: Heap<H, C, O>, e: H, c: C, d: C, buffer: Option<O>)
    requires Good(s) && e in s.handles && c !in s.counters
    requires buffer.Some? ==> d !in s.counters && c != d && buffer.value !in s.adopted
    ensures SetHandle(s, e, c, d, buffer).Some?
    ensures var s' := SetHandle(s, e, c, d, buffer).value;
            && Good(s') && s'.handles.Keys == s.handles.Keys
            && forall f :: f in s.handles ==> KindOf(s', f) == if f == e then AfterSetData(KindOf(s, e), buffer.Some?) else KindOf(s, f)
  {
    hide Good, Step, KindOf, ResetHandle;
    ResetMoves(s, e, c);
    if buffer.Some? { StepKinds(ResetHandle(s, e, c).value, HandleRuns.SetData(e, d, buffer)); }
  }

  lemma AddMoves<H, C, O>(s: Heap<H, C, O>, e: H, tmp: H, d: C, buffer: O)
    requires Good(s) && e in s.handles && tmp !in s.handles && d !in s.counters && buffer !in s.adopted
    ensures var s' := Then(Then(Step(s, New(tmp, d, Some(buffer))), Assign(e, tmp)), Drop(tmp));
            && s'.Some? && Good(s'.value) && s'.value.handles.Keys == s.handles.Keys
            && forall f :: f in s.handles ==> KindOf(s'.value, f) == if f == e then Buffer else KindOf(s, f)
  {
    hide Good, Step, WrapsNull;
    StepKinds(s, New(tmp, d, Some(buffer)));
    var s1 := Step(s, New(tmp, d, Some(buffer))).value;
    assert !WrapsNull(s1, tmp);
    hide KindOf;
    StepKinds(s1, Assign(e, tmp));
    StepKinds(Step(s1, Assign(e, tmp)).value, Drop(tmp));
  }

  // ---------------------------------------------------------------- copies of emptied events

  /** However events are destroyed, and handles from GetDataPtr dropped, from here, no deleted counter is used. */
  ghost predicate DestructionsAreSafe<H(!new), C(!new), O(!new)>(s: Heap<H, C, O>)
  {
    forall ops: seq<EventOp<H, C, O>> :: (forall i :: 0 <= i < |ops| ==> ops[i].Destroy? || ops[i].DropPtr?) ==> PerformAll(s, ops).Some?
  }

  lemma {:induction false} DestroysPermitted<H, C, O>(s: Heap<H, C, O>, ops: seq<EventOp<H, C, O>>)
    requires forall i :: 0 <= i < |ops| ==> ops[i].Destroy? || ops[i].DropPtr?
    ensures AllPermitted(s, ops)
    decreases |ops|
  {
    hide Perform;
    if ops != [] {
      assert ops[0].Destroy? || ops[0].DropPtr?;
      if Perform(s, ops[0]).Some? { DestroysPermitted(Perform(s, ops[0]).value, ops[1..]); }
    }
  }

  lemma GoodIsSafe<H(!new), C(!new), O(!new)>(s: Heap<H, C, O>)
    requires Good(s)
    ensures DestructionsAreSafe(s)
  {
    hide Good;
    forall ops: seq<EventOp<H, C, O>> | forall i :: 0 <= i < |ops| ==> ops[i].Destroy? || ops[i].DropPtr? ensures PerformAll(s, ops).Some? {
      DestroysPermitted(s, ops);
      RunKeepsGood(s, ops);
    }
  }

  /** Of two events on one counter of null the second to go uses it after its deletion. */
  lemma SharedNullFails<H, C, O>(s: Heap<H, C, O>, e: H, f: H, c: C, d: C)
    requires e in s.handles && e != f && WrapsNull(s, f) && s.handles[e] == s.handles[f]
    ensures PerformAll(s, [Destroy(f, c), Destroy(e, d)]) == None
  {
    var ops := [Destroy(f, c), Destroy(e, d)];
    var at := s.handles[f].value;
    assert ResetHandle(s, f, c) == Some(s);
    var s1 := Step(s, Drop(f)).value;
    assert Perform(s, ops[0]) == Some(s1);
    assert s1.handles[e] == Some(at) && at !in s1.counters;
    assert Perform(s1, Destroy(e, d)) == None;
    assert ops[1..] == [Destroy(e, d)];
    assert PerformAll(s1, ops[1..]) == None;
  }

  /** Where a copy's handle, and its original's, are. */
  lemma CopyMoves<H, C, O>(s: Heap<H, C, O>, e: H, from: H)
    requires Good(s) && e !in s.handles && from in s.handles
    ensures Perform(s, CopyEvent(e, from)).Some?
    ensures var s' := Perform(s, CopyEvent(e, from)).value;
            && s'.handles == s.handles[e := s.handles[from]]
            && (KindOf(s, from).OfNull? ==> WrapsNull(s', from))
  {
    var s1 := s.(handles := s.handles[e := None]);
    assert Step(s, Empty(e)) == Some(s1);
    StepFits(s, Empty(e));
    HandleFits(s, from);
    assert WrapsNull(s1, from) <==> KindOf(s, from).OfNull?;
    hide Good, WrapsNull, Step, KindOf;
    AssignMoves(s1, e, from);
    assert s.handles[e := None][e := s.handles[from]] == s.handles[e := s.handles[from]];
  }

  /**
   * Copying an event is safe, in whatever order events are destroyed later, if and only if its
   * handle is not on a counter of null.
   */
  lemma CopyingIsSafeIff<H(!new), C(!new), O(!new)>(s: Heap<H, C, O>, e: H, from: H)
    requires Good(s) && e !in s.handles && from in s.handles
    ensures Perform(s, CopyEvent(e, from)).Some?
    ensures DestructionsAreSafe(Perform(s, CopyEvent(e, from)).value) <==> !KindOf(s, from).OfNull?
  {
    CopyMoves(s, e, from);
    var s' := Perform(s, CopyEvent(e, from)).value;
    if !KindOf(s, from).OfNull? {
      PerformKeepsGood(s, CopyEvent(e, from));
      GoodIsSafe(s');
    } else {
      var c: C := s.handles[from].value;
      SharedNullFails(s', e, from, c, c);
    }
  }

  /** The same of assignment from another event. */
  lemma AssigningIsSafeIff<H(!new), C(!new), O(!new)>(s: Heap<H, C, O>, e: H, from: H)
    requires Good(s) && e in s.handles && from in s.handles && e != from
    ensures Perform(s, AssignEvent(e, from)).Some?
    ensures DestructionsAreSafe(Perform(s, AssignEvent(e, from)).value) <==> !KindOf(s, from).OfNull?
  {
    AssignMoves(s, e, from);
    var s' := Perform(s, AssignEvent(e, from)).value;
    if !KindOf(s, from).OfNull? {
      PerformKeepsGood(s, AssignEvent(e, from));
      GoodIsSafe(s');
    } else {
      var c: C := s.handles[from].value;
      SharedNullFails(s', e, from, c, c);
    }
  }

  /** And of taking a handle with GetDataPtr. */
  lemma PointerIsSafeIff<H(!new), C(!new), O(!new)>(s: Heap<H, C, O>, h: H, from: H)
    requires Good(s) && h !in s.handles && from in s.handles
    ensures Perform(s, GetPtr(h, from)).Some?
    ensures DestructionsAreSafe(Perform(s, GetPtr(h, from)).value) <==> !KindOf(s, from).OfNull?
  {
    HandleFits(s, from);
    if !KindOf(s, from).OfNull? {
      PerformKeepsGood(s, GetPtr(h, from));
      GoodIsSafe(Perform(s, GetPtr(h, from)).value);
    } else {
      CopyOfNull(s, h, from);
      var c: C := s.handles[from].value;
      SharedNullFails(Perform(s, GetPtr(h, from)).value, h, from, c, c);
    }
  }

  /** A counter of null does not notice who joins it. */
  lemma CopyOfNull<H, C, O>(s: Heap<H, C, O>, h: H, from: H)
    requires WrapsNull(s, from) && h !in s.handles
    ensures Perform(s, GetPtr(h, from)) == Perform(s, CopyEvent(h, from)) == Some(s.(handles := s.handles[h := s.handles[from]]))
    ensures WrapsNull(s.(handles := s.handles[h := s.handles[from]]), from)
  {
    var c := s.handles[from].value;
    assert s.counters[c := s.counters[c]] == s.counters;
    assert s.handles[h := None][h := s.handles[from]] == s.handles[h := s.handles[from]];
  }

  lemma NullThenCopyFails<H, C, O>(s: Heap<H, C, O>, e: H, f: H, d: C)
    requires Good(s) && e in s.handles && KindOf(s, e).OfNull? && f !in s.handles
    ensures PerformAll(s, [CopyEvent(f, e), Destroy(e, d), Destroy(f, d)]) == None
  {
    var ops := [CopyEvent(f, e), Destroy(e, d), Destroy(f, d)];
    CopyMoves(s, f, e);
    SharedNullFails(Perform(s, ops[0]).value, f, e, d, d);
    assert ops[1..] == [Destroy(e, d), Destroy(f, d)];
  }

  /**
   * An event that has read a message without payload must not be copied: whatever it held before,
   * destroying the event and then its copy uses a deleted counter.
   */
  lemma ReadNothingThenCopyFails<H, C, O>(s: Heap<H, C, O>, e: H, f: H, c: C, d: C)
    requires Good(s) && e in s.handles && f !in s.handles && c !in s.counters
    ensures PerformAll(s, [Read(e, c, d, None), CopyEvent(f, e), Destroy(e, d), Destroy(f, d)]) == None
  {
    var ops := [Read(e, c, d, None), CopyEvent(f, e), Destroy(e, d), Destroy(f, d)];
    PerformMoves(s, ops[0]);
    NullThenCopyFails(Perform(s, ops[0]).value, e, f, d);
    assert ops[1..] == [CopyEvent(f, e), Destroy(e, d), Destroy(f, d)];
  }

  /** The same of an event that had a buffer and was Reset. */
  lemma ResetThenCopyFails<H, C, O>(s: Heap<H, C, O>, e: H, f: H, c: C, d: C)
    requires Good(s) && e in s.handles && KindOf(s, e).Buffer? && f !in s.handles && c !in s.counters
    ensures PerformAll(s, [Reset(e, c), CopyEvent(f, e), Destroy(e, d), Destroy(f, d)]) == None
  {
    var ops := [Reset(e, c), CopyEvent(f, e), Destroy(e, d), Destroy(f, d)];
    PerformMoves(s, ops[0]);
    NullThenCopyFails(Perform(s, ops[0]).value, e, f, d);
    assert ops[1..] == [CopyEvent(f, e), Destroy(e, d), Destroy(f, d)];
  }

  /** And of an event made for no size. */
  lemma EmptySizedThenCopyFails<H, C, O>(s: Heap<H, C, O>, e: H, f: H, c: C, d: C)
    requires Good(s) && e !in s.handles && f !in s.handles && e != f && c !in s.counters
    ensures PerformAll(s, [Sized(e, c, None), CopyEvent(f, e), Destroy(e, d), Destroy(f, d)]) == None
  {
    var ops := [Sized(e, c, None), CopyEvent(f, e), Destroy(e, d), Destroy(f, d)];
    PerformMoves(s, ops[0]);
    NullThenCopyFails(Perform(s, ops[0]).value, e, f, d);
    assert ops[1..] == [CopyEvent(f, e), Destroy(e, d), Destroy(f, d)];
  }

  lemma First<H, C, O>(s: Heap<H, C, O>, op: EventOp<H, C, O>, rest: seq<EventOp<H, C, O>>)
    requires Perform(s, op).Some?
    ensures PerformAll(s, [op] + rest) == PerformAll(Perform(s, op).value, rest)
  {
    hide Perform;
    assert ([op] + rest)[1..] == rest;
  }

  lemma PointerTakesAll<H, C, O>(s: Heap<H, C, O>, e: H, h: H, d: C)
    requires WrapsNull(s, e) && h !in s.handles
    ensures PerformAll(s, [GetPtr(h, e), DropPtr(h), Destroy(e, d)]) == None
  {
    var ops := [GetPtr(h, e), DropPtr(h), Destroy(e, d)];
    CopyOfNull(s, h, e);
    var s1 := Perform(s, ops[0]).value;
    var s2 := Step(s1, Drop(h)).value;
    assert s2.handles[e] == s.handles[e] && s.handles[e].value !in s2.counters;
    assert ops[1..] == [ops[1], ops[2]] && ops[1..][1..] == [ops[2]];
    assert PerformAll(s2, [ops[2]]) == None;
  }

  /**
   * What GetDataPtr returns after Reset of an event that was on any counter takes the counter with
   * it when it goes, and the event uses it afterwards.
   */
  lemma ResetThenPointerFails<H, C, O>(s: Heap<H, C, O>, e: H, h: H, c: C, d: C)
    requires Good(s) && e in s.handles && !KindOf(s, e).NoCounter? && h !in s.handles && c !in s.counters
    ensures PerformAll(s, [Reset(e, c), GetPtr(h, e), DropPtr(h), Destroy(e, d)]) == None
  {
    hide Good, Perform, KindOf, WrapsNull;
    PerformMoves(s, Reset(e, c));
    var s1 := Perform(s, Reset(e, c)).value;
    NotNull(s1, e);
    PointerTakesAll(s1, e, h, d);
    First(s, Reset(e, c), [GetPtr(h, e), DropPtr(h), Destroy(e, d)]);
  }

  /**
   * What a queue makes of an event that had a payload and was then written a null pointer at its
   * end: Put copies it into `m`, the queue's own event, push copies that into a node `n`, and the
   * sender's event is destroyed. The next Put, of any event `x`, uses a deleted counter.
   */
  lemma WriteNothingThenPostFails<H, C, O>(s: Heap<H, C, O>, e: H, tmp: H, m: H, n: H, x: H, c: C, d: C)
    requires Good(s) && e in s.handles && KindOf(s, e).Buffer? && tmp !in s.handles && c !in s.counters
    requires m in s.handles && x in s.handles && e != m && x != m && x != e && n !in s.handles
    ensures PerformAll(s, [AddBuffer(e, tmp, c, d, None), AssignEvent(m, e), CopyEvent(n, m), Destroy(e, d), AssignEvent(m, x)]) == None
  {
    hide Good, Perform, KindOf, WrapsNull;
    var post := [CopyEvent(n, m), Destroy(e, d), AssignEvent(m, x)];
    PerformMoves(s, AddBuffer(e, tmp, c, d, None));
    var s1 := Perform(s, AddBuffer(e, tmp, c, d, None)).value;
    NotNull(s1, e);
    PutCopies(s1, m, e);
    var s2 := Perform(s1, AssignEvent(m, e)).value;
    AfterPost(s2, e, m, n, x, d);
    First(s1, AssignEvent(m, e), post);
    assert [AssignEvent(m, e)] + post == [AssignEvent(m, e), post[0], post[1], post[2]];
    First(s, AddBuffer(e, tmp, c, d, None), [AssignEvent(m, e)] + post);
  }

  lemma PutCopies<H, C, O>(s: Heap<H, C, O>, m: H, e: H)
    requires Good(s) && e in s.handles && m in s.handles && e != m
    ensures Perform(s, AssignEvent(m, e)).Some?
    ensures var s' := Perform(s, AssignEvent(m, e)).value;
            s'.handles == s.handles[m := s.handles[e]] && WrapsNull(s', e) == WrapsNull(s, e)
  {
    AssignMoves(s, m, e);
  }

  lemma AfterPost<H, C, O>(s: Heap<H, C, O>, e: H, m: H, n: H, x: H, d: C)
    requires WrapsNull(s, e) && m in s.handles && s.handles[m] == s.handles[e] && x in s.handles && n !in s.handles
    requires e != m && x != m && x != e
    ensures PerformAll(s, [CopyEvent(n, m), Destroy(e, d), AssignEvent(m, x)]) == None
  {
    var ops := [CopyEvent(n, m), Destroy(e, d), AssignEvent(m, x)];
    CopyOfNull(s, n, m);
    var s1 := Perform(s, ops[0]).value;
    assert ResetHandle(s1, e, d) == Some(s1);
    var s2 := Step(s1, Drop(e)).value;
    assert s2.handles[m] == s.handles[e] && s.handles[e].value !in s2.counters;
    assert Step(s2, Assign(m, x)) == None;
    assert ops[1..] == [ops[1], ops[2]] && ops[1..][1..] == [ops[2]];
    assert PerformAll(s2, [ops[2]]) == None;
  }
}
