/**
 * Whole runs of counted handles (XLSharedSmPtr), as values: what any sequence of creating,
 * copying, assigning, resetting and dropping handles does to the counters and their objects.
 */
module HandleRuns {
  import opened Basics

  /** m_iCount and the object, None for a counter made for null. */
  datatype Counter<O> = Counter(count: int, obj: Option<O>)

  /** Existing counters, what each existing handle points to; history: the objects ever given to
      a handle, and those deleted, in order. */
  datatype Heap<H, C, O> = Heap(counters: map<C, Counter<O>>, handles: map<H, Option<C>>, adopted: set<O>, freed: seq<O>)

  /** `c` is where the new counter is put. */
  datatype Op<H, C, O> =
    | Empty(h: H) | New(h: H, c: C, obj: Option<O>) | Copy(h: H, from: H) | Assign(h: H, from: H)
    | SetData(h: H, c: C, obj: Option<O>) | Drop(h: H)

  ghost function Nothing<H, C, O>(): Heap<H, C, O>
  {
    Heap(map[], map[], {}, [])
  }

  /** ReleaseData; None if the handle's counter has been deleted. */
  ghost function Release<H, C, O>(s: Heap<H, C, O>, h: H): Option<Heap<H, C, O>>
    requires h in s.handles
  {
    match s.handles[h]
    case None => Some(s)
    case Some(c) =>
      if c !in s.counters then None
      else
        var Counter(n, obj) := s.counters[c];
        var s' := s.(handles := s.handles[h := None]);
        match obj
        case None => Some(s'.(counters := s.counters - {c}))
        case Some(o) =>
          if n - 1 == 0 then Some(s'.(counters := s.counters - {c}, freed := s.freed + [o]))
          else Some(s'.(counters := s.counters[c := Counter(n - 1, obj)]))
  }

  /** A new counter for the handle. */
  ghost function Adopt<H, C, O>(s: Heap<H, C, O>, h: H, c: C, obj: Option<O>): Heap<H, C, O>
  {
    s.(counters := s.counters[c := Counter(if obj.Some? then 1 else 0, obj)], handles := s.handles[h := Some(c)],
       adopted := s.adopted + if obj.Some? then {obj.value} else {})
  }

  /** The handle joins the counter of another. */
  ghost function Share<H, C, O>(s: Heap<H, C, O>, h: H, from: H): Option<Heap<H, C, O>>
    requires from in s.handles
  {
    match s.handles[from]
    case None => Some(s.(handles := s.handles[h := None]))
    case Some(c) =>
      if c !in s.counters then None
      else Some(s.(handles := s.handles[h := Some(c)],
                   counters := s.counters[c := Counter(s.counters[c].count + (if s.counters[c].obj.Some? then 1 else 0),
                                                       s.counters[c].obj)]))
  }

  /** One operation; None if it uses a deleted counter. What cannot be called does nothing. */
  ghost function Step<H, C, O>(s: Heap<H, C, O>, op: Op<H, C, O>): Option<Heap<H, C, O>>
  {
    match op
    case Empty(h) => Some(if h in s.handles then s else s.(handles := s.handles[h := None]))
    case New(h, c, obj) => Some(if h in s.handles || c in s.counters then s else Adopt(s, h, c, obj))
    case Copy(h, from) => if h in s.handles || from !in s.handles then Some(s) else Share(s, h, from)
    case Assign(h, from) =>
      if h !in s.handles || from !in s.handles || h == from then Some(s)
      else (match Release(s, h) case None => None case Some(s1) => Share(s1, h, from))
    case SetData(h, c, obj) =>
      if h !in s.handles || c in s.counters then Some(s)
      else (match Release(s, h) case None => None case Some(s1) => Some(Adopt(s1, h, c, obj)))
    case Drop(h) =>
      if h !in s.handles then Some(s)
      else (match Release(s, h) case None => None case Some(s1) => Some(s1.(handles := s1.handles - {h})))
  }

  ghost function Run<H, C, O>(s: Heap<H, C, O>, ops: seq<Op<H, C, O>>): Option<Heap<H, C, O>>
    decreases |ops|
  {
    if ops == [] then Some(s)
    else match Step(s, ops[0]) case None => None case Some(s') => Run(s', ops[1..])
  }

  /** The handle has a counter that was made for null. */
  ghost predicate WrapsNull<H, C, O>(s: Heap<H, C, O>, h: H)
  {
    h in s.handles && s.handles[h].Some? && s.handles[h].value in s.counters && s.counters[s.handles[h].value].obj == None
  }

  /** Objects given to handles are new, and handles wrapping null are not copied. */
  ghost predicate Allowed<H, C, O>(s: Heap<H, C, O>, op: Op<H, C, O>)
  {
    match op
    case Empty(_) => true
    case New(_, _, obj) => obj.Some? ==> obj.value !in s.adopted
    case SetData(_, _, obj) => obj.Some? ==> obj.value !in s.adopted
    case Copy(_, from) => !WrapsNull(s, from)
    case Assign(h, from) => h == from || !WrapsNull(s, from)
    case Drop(_) => true
  }

  ghost predicate AllAllowed<H, C, O>(s: Heap<H, C, O>, ops: seq<Op<H, C, O>>)
    decreases |ops|
  {
    ops == [] || (Allowed(s, ops[0]) && (Step(s, ops[0]).Some? ==> AllAllowed(Step(s, ops[0]).value, ops[1..])))
  }

  // ---------------------------------------------------------------- invariant

  ghost function On<H, C, O>(s: Heap<H, C, O>, c: C): set<H>
  {
    set h | h in s.handles && s.handles[h] == Some(c)
  }

  ghost predicate CounterOk<H, C, O>(s: Heap<H, C, O>, c: C)
    requires c in s.counters
  {
    match s.counters[c].obj
    case None => s.counters[c].count == 0 && |On(s, c)| == 1
    case Some(_) => s.counters[c].count == |On(s, c)| && 0 < |On(s, c)|
  }

  /** No handle dangles, and the counts are right. */
  ghost predicate CountersGood<H, C, O>(s: Heap<H, C, O>)
  {
    && (forall h :: h in s.handles && s.handles[h].Some? ==> s.handles[h].value in s.counters)
    && (forall c :: c in s.counters ==> CounterOk(s, c))
  }

  ghost predicate Owned<H, C, O>(s: Heap<H, C, O>, o: O)
  {
    exists c :: c in s.counters && s.counters[c].obj == Some(o)
  }

  /** Every adopted object is owned by one counter, or was deleted once. */
  ghost predicate ObjectsGood<H, C, O>(s: Heap<H, C, O>)
  {
    && (forall c :: c in s.counters && s.counters[c].obj.Some? ==>
                      s.counters[c].obj.value in s.adopted && s.counters[c].obj.value !in s.freed)
    && (forall c, d :: c in s.counters && d in s.counters && c != d && s.counters[c].obj.Some? ==>
                         s.counters[c].obj != s.counters[d].obj)
    && (forall o :: o in s.adopted ==> o in s.freed || Owned(s, o))
    && (forall o :: o in s.freed ==> o in s.adopted)
    && (forall i, j :: 0 <= i < j < |s.freed| ==> s.freed[i] != s.freed[j])
  }

  ghost predicate Good<H, C, O>(s: Heap<H, C, O>)
  {
    CountersGood(s) && ObjectsGood(s)
  }

  lemma ReleaseCounters<H, C, O>(s: Heap<H, C, O>, h: H, c: C)
    requires CountersGood(s) && h in s.handles && s.handles[h] == Some(c)
    ensures Release(s, h).Some? && CountersGood(Release(s, h).value)
  {
    var s' := Release(s, h).value;
    assert CounterOk(s, c);
    assert On(s', c) == On(s, c) - {h};
    if |On(s, c)| == 1 {
      forall g | g in s'.handles && s'.handles[g].Some? ensures s'.handles[g].value in s'.counters {
        if s'.handles[g].value == c { OnlyOne(On(s, c), h, g); }
      }
    }
    forall d | d in s'.counters ensures CounterOk(s', d) {
      assert CounterOk(s, d);
      if d != c { assert On(s', d) == On(s, d); }
    }
  }

  lemma ReleaseObjects<H, C, O>(s: Heap<H, C, O>, h: H, c: C)
    requires CountersGood(s) && ObjectsGood(s) && h in s.handles && s.handles[h] == Some(c)
    ensures Release(s, h).Some? && ObjectsGood(Release(s, h).value)
  {
    hide CountersGood, On;
    assert c in s.counters by { HandleHasCounter(s, h, c); }
    var s' := Release(s, h).value;
    forall o | o in s'.adopted ensures o in s'.freed || Owned(s', o) {
      if o !in s.freed {
        var d :| d in s.counters && s.counters[d].obj == Some(o);
        assert d in s'.counters ==> s'.counters[d].obj == Some(o);
        assert d !in s'.counters ==> s'.freed[|s.freed|] == o;
      }
    }
  }

  lemma HandleHasCounter<H, C, O>(s: Heap<H, C, O>, h: H, c: C)
    requires CountersGood(s) && h in s.handles && s.handles[h] == Some(c)
    ensures c in s.counters
  {
  }

  lemma SomeHandle<H, C, O>(s: Heap<H, C, O>, c: C)
    requires CountersGood(s) && c in s.counters
    ensures s.handles.Keys != {}
  {
    assert CounterOk(s, c) && On(s, c) <= s.handles.Keys;
    assert On(s, c) != {};
  }

  lemma ReleaseKeepsGood<H, C, O>(s: Heap<H, C, O>, h: H)
    requires Good(s) && h in s.handles
    ensures Release(s, h).Some?
    ensures var s' := Release(s, h).value;
            Good(s') && s'.handles == s.handles[h := None] && s'.adopted == s.adopted
            && s'.counters.Keys <= s.counters.Keys
            && (forall g :: g in s.handles && g != h ==> WrapsNull(s', g) == WrapsNull(s, g))
  {
    hide ObjectsGood, On;
    if s.handles[h].Some? {
      ReleaseCounters(s, h, s.handles[h].value);
      ReleaseObjects(s, h, s.handles[h].value);
    } else {
      assert s.handles[h := None] == s.handles;
    }
  }

  lemma AdoptCounters<H, C, O>(s: Heap<H, C, O>, h: H, c: C, obj: Option<O>)
    requires CountersGood(s) && (h in s.handles ==> s.handles[h] == None) && c !in s.counters
    ensures CountersGood(Adopt(s, h, c, obj))
  {
    var s' := Adopt(s, h, c, obj);
    assert On(s', c) == {h};
    forall d | d in s'.counters ensures CounterOk(s', d) {
      if d != c {
        assert CounterOk(s, d);
        assert On(s', d) == On(s, d);
      }
    }
  }

  lemma AdoptObjects<H, C, O>(s: Heap<H, C, O>, h: H, c: C, obj: Option<O>)
    requires ObjectsGood(s) && c !in s.counters && (obj.Some? ==> obj.value !in s.adopted)
    ensures ObjectsGood(Adopt(s, h, c, obj))
  {
    var s' := Adopt(s, h, c, obj);
    forall o | o in s'.adopted ensures o in s'.freed || Owned(s', o) {
      if obj == Some(o) {
        assert s'.counters[c].obj == Some(o);
      } else if o !in s.freed {
        var d :| d in s.counters && s.counters[d].obj == Some(o);
        assert s'.counters[d].obj == Some(o);
      }
    }
    assert forall d :: d in s.counters ==> s'.counters[d] == s.counters[d];
  }

  lemma AdoptKeepsGood<H, C, O>(s: Heap<H, C, O>, h: H, c: C, obj: Option<O>)
    requires Good(s) && (h in s.handles ==> s.handles[h] == None) && c !in s.counters
    requires obj.Some? ==> obj.value !in s.adopted
    ensures Good(Adopt(s, h, c, obj))
  {
    hide CountersGood, ObjectsGood, Adopt;
    AdoptCounters(s, h, c, obj);
    AdoptObjects(s, h, c, obj);
  }

  lemma ShareOn<H, C, O>(s: Heap<H, C, O>, h: H, from: H, d: C)
    requires from in s.handles && h != from && (h in s.handles ==> s.handles[h] == None) && Share(s, h, from).Some?
    ensures On(Share(s, h, from).value, d) == On(s, d) + if s.handles[from] == Some(d) then {h} else {}
    ensures h !in On(s, d)
  {
  }

  lemma ShareCounters<H, C, O>(s: Heap<H, C, O>, h: H, from: H)
    requires CountersGood(s) && from in s.handles && h != from && (h in s.handles ==> s.handles[h] == None) && !WrapsNull(s, from)
    ensures Share(s, h, from).Some? && CountersGood(Share(s, h, from).value)
  {
    var s' := Share(s, h, from).value;
    hide On;
    forall d | d in s'.counters ensures CounterOk(s', d) {
      assert CounterOk(s, d);
      ShareOn(s, h, from, d);
    }
  }

  lemma ShareObjects<H, C, O>(s: Heap<H, C, O>, h: H, from: H)
    requires ObjectsGood(s) && from in s.handles && Share(s, h, from).Some?
    ensures ObjectsGood(Share(s, h, from).value)
  {
    var s' := Share(s, h, from).value;
    assert s'.counters.Keys == s.counters.Keys;
    assert forall d :: d in s.counters ==> s'.counters[d].obj == s.counters[d].obj;
    forall o | o in s'.adopted ensures o in s'.freed || Owned(s', o) {
      if o !in s.freed {
        var d :| d in s.counters && s.counters[d].obj == Some(o);
        assert s'.counters[d].obj == Some(o);
      }
    }
  }

  lemma ShareKeepsGood<H, C, O>(s: Heap<H, C, O>, h: H, from: H)
    requires Good(s) && from in s.handles && h != from && (h in s.handles ==> s.handles[h] == None) && !WrapsNull(s, from)
    ensures Share(s, h, from).Some? && Good(Share(s, h, from).value)
  {
    ShareCounters(s, h, from);
    ShareObjects(s, h, from);
  }

  lemma StepKeepsGood<H, C, O>(s: Heap<H, C, O>, op: Op<H, C, O>)
    requires Good(s) && Allowed(s, op)
    ensures Step(s, op).Some? && Good(Step(s, op).value)
  {
    hide Good, Adopt, Share, Release;
    match op
    case Empty(h) => if h !in s.handles { EmptyKeepsGood(s, h); }
    case New(h, c, obj) => if h !in s.handles && c !in s.counters { AdoptKeepsGood(s, h, c, obj); }
    case Copy(h, from) => if h !in s.handles && from in s.handles { ShareKeepsGood(s, h, from); }
    case Assign(h, from) =>
      if h in s.handles && from in s.handles && h != from {
        ReleaseKeepsGood(s, h);
        ShareKeepsGood(Release(s, h).value, h, from);
      }
    case SetData(h, c, obj) =>
      if h in s.handles && c !in s.counters {
        ReleaseKeepsGood(s, h);
        AdoptKeepsGood(Release(s, h).value, h, c, obj);
      }
    case Drop(h) => if h in s.handles { DropKeepsGood(s, h); }
  }

  /** What the handle lets go of when it is the last on its counter. */
  ghost function LastObject<H, C, O>(s: Heap<H, C, O>, h: H): Option<O>
    requires h in s.handles && (s.handles[h].Some? ==> s.handles[h].value in s.counters)
  {
    if s.handles[h].Some? && |On(s, s.handles[h].value)| == 1 then s.counters[s.handles[h].value].obj else None
  }

  lemma ReleaseFrees<H, C, O>(s: Heap<H, C, O>, h: H)
    requires CountersGood(s) && h in s.handles
    ensures Release(s, h).Some?
    ensures Release(s, h).value.freed == s.freed + if LastObject(s, h).Some? then [LastObject(s, h).value] else []
  {
    if s.handles[h].Some? { assert CounterOk(s, s.handles[h].value); }
    hide On;
  }

  lemma ShareMoves<H, C, O>(s: Heap<H, C, O>, h: H, from: H)
    requires from in s.handles && h != from && (s.handles[from].Some? ==> s.handles[from].value in s.counters)
    ensures Share(s, h, from).Some? && WrapsNull(Share(s, h, from).value, from) == WrapsNull(s, from)
    ensures Share(s, h, from).value.handles == s.handles[h := s.handles[from]] && Share(s, h, from).value.freed == s.freed
  {
  }

  lemma SharedIsNotLast<H, C, O>(s: Heap<H, C, O>, h: H, g: H)
    requires CountersGood(s) && h in s.handles && g in s.handles && h != g && s.handles[h] == s.handles[g]
    ensures LastObject(s, h) == None
  {
    if s.handles[h].Some? { SharedByTwo(On(s, s.handles[h].value), h, g); }
  }

  /**
   * Assignment makes the handle point where the other does. What it pointed to is deleted exactly
   * if the handle was the last on its counter, which it is not if both were on the same.
   */
  lemma AssignMoves<H, C, O>(s: Heap<H, C, O>, h: H, from: H)
    requires Good(s) && h in s.handles && from in s.handles && h != from
    ensures Step(s, Assign(h, from)).Some? && Step(s, Assign(h, from)).value.handles == s.handles[h := s.handles[from]]
    ensures Step(s, Assign(h, from)).value.freed == s.freed + if LastObject(s, h).Some? then [LastObject(s, h).value] else []
    ensures s.handles[h] == s.handles[from] ==> LastObject(s, h) == None
    ensures WrapsNull(Step(s, Assign(h, from)).value, from) == WrapsNull(s, from)
  {
    hide ObjectsGood, Release, On, LastObject;
    ReleaseFrees(s, h);
    ReleaseKeepsGood(s, h);
    ShareMoves(Release(s, h).value, h, from);
    if s.handles[h] == s.handles[from] { SharedIsNotLast(s, h, from); }
  }

  lemma DropKeepsGood<H, C, O>(s: Heap<H, C, O>, h: H)
    requires Good(s) && h in s.handles
    ensures Step(s, Drop(h)).Some? && Good(Step(s, Drop(h)).value)
  {
    hide Good, Release;
    ReleaseKeepsGood(s, h);
    Forget(Release(s, h).value, h);
  }

  /** A handle that points nowhere may come or go. */
  lemma ObjectsSame<H, C, O>(s: Heap<H, C, O>, s': Heap<H, C, O>)
    requires ObjectsGood(s) && s' == s.(handles := s'.handles)
    ensures ObjectsGood(s')
  {
    assert forall o :: o in s.adopted ==> (Owned(s', o) <==> Owned(s, o));
  }

  lemma Forget<H, C, O>(s: Heap<H, C, O>, h: H)
    requires Good(s) && h in s.handles && s.handles[h] == None
    ensures Good(s.(handles := s.handles - {h}))
  {
    hide ObjectsGood;
    var s' := s.(handles := s.handles - {h});
    forall d | d in s'.counters ensures CounterOk(s', d) {
      assert CounterOk(s, d);
      assert On(s', d) == On(s, d);
    }
    ObjectsSame(s, s');
  }

  lemma EmptyKeepsGood<H, C, O>(s: Heap<H, C, O>, h: H)
    requires Good(s) && h !in s.handles
    ensures Good(s.(handles := s.handles[h := None]))
  {
    hide ObjectsGood;
    var s' := s.(handles := s.handles[h := None]);
    forall d | d in s'.counters ensures CounterOk(s', d) {
      assert CounterOk(s, d);
      assert On(s', d) == On(s, d);
    }
    ObjectsSame(s, s');
  }

  lemma {:induction false} RunKeepsGood<H, C, O>(s: Heap<H, C, O>, ops: seq<Op<H, C, O>>)
    requires Good(s) && AllAllowed(s, ops)
    ensures Run(s, ops).Some? && Good(Run(s, ops).value)
    decreases |ops|
  {
    hide Good;
    if ops != [] {
      StepKeepsGood(s, ops[0]);
      RunKeepsGood(Step(s, ops[0]).value, ops[1..]);
    }
  }

  /**
   * Over any run that gives each object to one handle and copies no handle of null: no deleted
   * counter is ever used, every count is the number of handles on it, no object is deleted
   * twice or while a handle refers to it, and once no handle is left every object was deleted.
   */
  lemma CountsAreExact<H, C, O>(ops: seq<Op<H, C, O>>)
    requires AllAllowed(Nothing(), ops)
    ensures Run(Nothing(), ops).Some?
    ensures var s := Run(Nothing(), ops).value;
            && (forall c :: c in s.counters && s.counters[c].obj.Some? ==>
                              s.counters[c].count == |On(s, c)| > 0 && s.counters[c].obj.value !in s.freed)
            && (forall c :: c in s.counters && s.counters[c].obj == None ==> s.counters[c].count == 0 && |On(s, c)| == 1)
            && (forall i, j :: 0 <= i < j < |s.freed| ==> s.freed[i] != s.freed[j])
            && (s.handles.Keys == {} ==> forall o :: o in s.adopted ==> o in s.freed)
  {
    RunKeepsGood(Nothing(), ops);
    var s := Run(Nothing(), ops).value;
    assert forall c :: c in s.counters ==> CounterOk(s, c);
    forall c | c in s.counters ensures s.handles.Keys != {} { SomeHandle(s, c); }
  }

  /** The objects an operation deletes. */
  ghost function Frees<H, C, O>(s: Heap<H, C, O>, op: Op<H, C, O>): seq<O>
    requires CountersGood(s)
  {
    if op.h !in s.handles || op.Empty? || op.New? || op.Copy? || (op.Assign? && (op.from !in s.handles || op.h == op.from))
       || (op.SetData? && op.c in s.counters) || LastObject(s, op.h) == None then []
    else [LastObject(s, op.h).value]
  }

  /** The objects it gives to a handle. */
  ghost function Adopts<H, C, O>(s: Heap<H, C, O>, op: Op<H, C, O>): set<O>
  {
    if ((op.New? && op.h !in s.handles) || (op.SetData? && op.h in s.handles)) && op.c !in s.counters && op.obj.Some? then
      {op.obj.value}
    else {}
  }

  /** An operation deletes what its handle was the last to refer to, and nothing else. */
  lemma StepFrees<H, C, O>(s: Heap<H, C, O>, op: Op<H, C, O>)
    requires Good(s) && Step(s, op).Some?
    ensures Step(s, op).value.freed == s.freed + Frees(s, op)
    ensures Step(s, op).value.adopted == s.adopted + Adopts(s, op)
  {
    hide ObjectsGood, CounterOk, On, Release, LastObject;
    assert s.freed + [] == s.freed;
    if op.h in s.handles { ReleaseFrees(s, op.h); ReleaseKeepsGood(s, op.h); }
  }

  // ---------------------------------------------------------------- what a state is made of

  /** Where an operation leaves the handles. */
  ghost function HandlesAfter<H, C, O>(s: Heap<H, C, O>, op: Op<H, C, O>): map<H, Option<C>>
  {
    match op
    case Empty(h) => if h in s.handles then s.handles else s.handles[h := None]
    case New(h, c, _) => if h in s.handles || c in s.counters then s.handles else s.handles[h := Some(c)]
    case Copy(h, from) => if h in s.handles || from !in s.handles then s.handles else s.handles[h := s.handles[from]]
    case Assign(h, from) => if h !in s.handles || from !in s.handles then s.handles else s.handles[h := s.handles[from]]
    case SetData(h, c, _) => if h !in s.handles || c in s.counters then s.handles else s.handles[h := Some(c)]
    case Drop(h) => s.handles - {h}
  }

  /** Only a new counter is not among those that were there. */
  lemma NewCounterIs<H, C, O>(s: Heap<H, C, O>, op: Op<H, C, O>, h: H, c: C)
    requires CountersGood(s) && h in HandlesAfter(s, op) && HandlesAfter(s, op)[h] == Some(c) && c !in s.counters
    ensures (op.New? || op.SetData?) && op.c == c
  {
    assert h in s.handles && s.handles[h] == Some(c) ==> c in s.counters;
    hide CountersGood;
    match op
    case Copy(_, from) =>
    case Assign(_, from) =>
    case _ =>
  }

  /** An operation moves the handles as it should, and no counter ever changes its object. */
  lemma StepMoves<H, C, O>(s: Heap<H, C, O>, op: Op<H, C, O>)
    requires Good(s) && Step(s, op).Some?
    ensures Step(s, op).value.handles == HandlesAfter(s, op)
    ensures var s' := Step(s, op).value;
            forall c :: c in s'.counters ==>
              if c in s.counters then s'.counters[c].obj == s.counters[c].obj
              else (op.New? || op.SetData?) && op.c == c && s'.counters[c].obj == op.obj
  {
    hide Good, On;
    if op.Assign? && op.h == op.from && op.h in s.handles { assert s.handles[op.h := s.handles[op.h]] == s.handles; }
    if op.Drop? && op.h in s.handles { ReleaseKeepsGood(s, op.h); }
  }

  /** Handles and objects determine the counters. */
  lemma BooksDetermined<H, C, O>(s: Heap<H, C, O>, t: Heap<H, C, O>)
    requires CountersGood(s) && CountersGood(t) && s.handles == t.handles
    requires forall c :: c in s.counters && c in t.counters ==> s.counters[c].obj == t.counters[c].obj
    ensures s.counters == t.counters
  {
    forall c ensures c in s.counters <==> c in t.counters {
      assert On(s, c) == On(t, c);
      if c in s.counters { CounterReached(s, c); }
      if c in t.counters { CounterReached(t, c); }
    }
    forall c | c in s.counters ensures s.counters[c] == t.counters[c] {
      assert CounterOk(s, c) && CounterOk(t, c) && On(s, c) == On(t, c);
    }
  }

  lemma CounterReached<H, C, O>(s: Heap<H, C, O>, c: C)
    requires CountersGood(s) && c in s.counters
    ensures exists h :: h in s.handles && s.handles[h] == Some(c)
  {
    assert CounterOk(s, c);
    assert On(s, c) != {};
    var h :| h in On(s, c);
  }

  /** Books that are right, with the handles where an operation leaves them, are those it makes. */
  lemma StepDetermined<H, C, O>(s: Heap<H, C, O>, op: Op<H, C, O>, t: Heap<H, C, O>)
    requires Good(s) && Allowed(s, op) && CountersGood(t) && t.handles == HandlesAfter(s, op)
    requires forall c :: c in t.counters ==>
               if c in s.counters then t.counters[c].obj == s.counters[c].obj
               else (op.New? || op.SetData?) && t.counters[c].obj == op.obj
    ensures Step(s, op).Some? && Step(s, op).value.handles == t.handles && Step(s, op).value.counters == t.counters
  {
    StepKeepsGood(s, op);
    StepMoves(s, op);
    hide CountersGood, ObjectsGood, Step, HandlesAfter;
    BooksDetermined(Step(s, op).value, t);
  }

  // ---------------------------------------------------------------- handles of null

  /** However the handles are dropped from here, no deleted counter is used. */
  ghost predicate DropsAreSafe<H(!new), C(!new), O(!new)>(s: Heap<H, C, O>)
  {
    forall ops: seq<Op<H, C, O>> :: (forall i :: 0 <= i < |ops| ==> ops[i].Drop?) ==> Run(s, ops).Some?
  }

  /**
   * Copying a handle is safe if and only if it does not wrap null: a counter made for null counts
   * nobody, so the first of two handles to go deletes it and the second uses it afterwards.
   */
  lemma CopyIsSafeIff<H(!new), C(!new), O(!new)>(s: Heap<H, C, O>, h: H, from: H)
    requires Good(s) && h !in s.handles && from in s.handles
    ensures Step(s, Copy(h, from)).Some?
    ensures DropsAreSafe(Step(s, Copy(h, from)).value) <==> !WrapsNull(s, from)
  {
    if !WrapsNull(s, from) {
      StepKeepsGood(s, Copy(h, from));
      GoodDropsSafely(Step(s, Copy(h, from)).value);
    } else {
      NullCopyDangles(s, h, from);
    }
  }

  /** The same of assignment from another handle. */
  lemma AssignIsSafeIff<H(!new), C(!new), O(!new)>(s: Heap<H, C, O>, h: H, from: H)
    requires Good(s) && h in s.handles && from in s.handles && h != from
    ensures Step(s, Assign(h, from)).Some?
    ensures DropsAreSafe(Step(s, Assign(h, from)).value) <==> !WrapsNull(s, from)
  {
    AssignMoves(s, h, from);
    if !WrapsNull(s, from) {
      StepKeepsGood(s, Assign(h, from));
      GoodDropsSafely(Step(s, Assign(h, from)).value);
    } else {
      SharedNullDangles(Step(s, Assign(h, from)).value, h, from);
    }
  }

  lemma GoodDropsSafely<H(!new), C(!new), O(!new)>(s: Heap<H, C, O>)
    requires Good(s)
    ensures DropsAreSafe(s)
  {
    hide Good;
    forall ops: seq<Op<H, C, O>> | forall i :: 0 <= i < |ops| ==> ops[i].Drop? ensures Run(s, ops).Some? {
      DropsAllowed(s, ops);
      RunKeepsGood(s, ops);
    }
  }

  lemma {:induction false} DropsAllowed<H, C, O>(s: Heap<H, C, O>, ops: seq<Op<H, C, O>>)
    requires forall i :: 0 <= i < |ops| ==> ops[i].Drop?
    ensures AllAllowed(s, ops)
    decreases |ops|
  {
    if ops != [] && Step(s, ops[0]).Some? {
      assert ops[0].Drop?;
      DropsAllowed(Step(s, ops[0]).value, ops[1..]);
    }
  }

  lemma NullCopyDangles<H, C, O>(s: Heap<H, C, O>, h: H, from: H)
    requires h !in s.handles && WrapsNull(s, from)
    ensures Step(s, Copy(h, from)).Some?
    ensures Run(Step(s, Copy(h, from)).value, [Drop(from), Drop(h)]) == None
  {
    SharedNullDangles(Step(s, Copy(h, from)).value, h, from);
  }

  /** Of two handles on one counter of null the second to go uses it after its deletion. */
  lemma SharedNullDangles<H, C, O>(s: Heap<H, C, O>, h: H, g: H)
    requires h in s.handles && h != g && WrapsNull(s, g) && s.handles[h] == s.handles[g]
    ensures Run(s, [Drop(g), Drop(h)]) == None
  {
    var c := s.handles[g].value;
    var s2 := Step(s, Drop(g)).value;
    assert s2.handles[h] == Some(c) && c !in s2.counters;
    assert Step(s2, Drop(h)) == None;
    var ops := [Drop(g), Drop(h)];
    assert ops[1..] == [Drop(h)];
    assert Run(s2, ops[1..]) == None;
  }
}
