/**
 * The counted handles of XLAutoPtr.h in the heap: handles (XLSharedSmPtr) point to a shared
 * counter (RefCounterObject), the counter to the object it owns.
 */
module AutoPtr {
  import opened Basics
  import HR = HandleRuns

  /** An object that can be owned; `deletes` (history) counts how often it was deleted. */
  class Target {
    ghost var deletes: nat

    constructor ()
      ensures deletes == 0
    {
      deletes := 0;
    }
  }

  class RefCounterObject {
    var m_iCount: int
    var m_pData: Target?
    ghost var disposed: bool  // the counter itself has been deleted
    ghost const owned: Target?  // what it was created for

    constructor (data: Target?)
      ensures m_pData == data == owned && !disposed && m_iCount == if data == null then 0 else 1
    {
      m_iCount := 0;
      m_pData := data;
      owned := data;
      disposed := false;
      new;
      AddRef();
    }

    method AddRef()
      requires !disposed
      modifies this`m_iCount
      ensures m_iCount == old(m_iCount) + if m_pData == null then 0 else 1
    {
      if m_pData != null {
        m_iCount := m_iCount + 1;
      }
    }

    method Release()
      requires !disposed
      modifies this`m_iCount, this`m_pData, m_pData
      ensures m_iCount == old(m_iCount) - if old(m_pData) == null then 0 else 1
      ensures m_pData == if old(m_iCount) == 1 then null else old(m_pData)
      ensures old(m_pData) != null ==> old(m_pData).deletes == old(m_pData.deletes) + if old(m_iCount) == 1 then 1 else 0
    {
      if m_pData != null {
        m_iCount := m_iCount - 1;
        if m_iCount == 0 {
          m_pData.deletes := m_pData.deletes + 1;
          m_pData := null;
        }
      }
    }
  }

  /** The handles on a counter. */
  ghost function On(hs: set<XLSharedSmPtr>, c: RefCounterObject): set<XLSharedSmPtr>
    reads hs
  {
    set h | h in hs && h.m_pData == c
  }

  ghost predicate CounterOk(hs: set<XLSharedSmPtr>, c: RefCounterObject)
    reads hs, c, c.m_pData
  {
    && !c.disposed && c.m_pData == c.owned
    && (c.m_pData == null ==> c.m_iCount == 0 && |On(hs, c)| == 1)
    && (c.m_pData != null ==> c.m_iCount == |On(hs, c)| && c.m_pData.deletes == 0)
  }

  /** The counters and objects the handles reach. */
  ghost function Reached(hs: set<XLSharedSmPtr>): set<object>
    reads hs, set h | h in hs && h.m_pData != null :: h.m_pData
  {
    (set h | h in hs && h.m_pData != null :: h.m_pData)
    + (set h | h in hs && h.m_pData != null && h.m_pData.m_pData != null :: h.m_pData.m_pData)
  }

  /**
   * `hs` are the handles that exist. A counter counts the handles on it and its object is alive;
   * a counter of null has one handle; two counters never own the same object.
   */
  ghost predicate Counted(hs: set<XLSharedSmPtr>)
    reads hs, set h | h in hs && h.m_pData != null :: h.m_pData, Reached(hs)
  {
    && (forall h :: h in hs && h.m_pData != null ==> CounterOk(hs, h.m_pData))
    && (forall h, g :: h in hs && g in hs && h.m_pData != null && g.m_pData != null && h.m_pData != g.m_pData ==>
                         h.m_pData.owned == null || h.m_pData.owned != g.m_pData.owned)
  }

  /** The object the handle refers to, null for none. */
  ghost function Object(h: XLSharedSmPtr): Target?
    reads h, h.m_pData
  {
    if h.m_pData == null then null else h.m_pData.owned
  }

  /** The handle is on a counter that was made for null. */
  ghost predicate WrapsNull(h: XLSharedSmPtr)
    reads h, h.m_pData
  {
    h.m_pData != null && h.m_pData.m_pData == null
  }

  class XLSharedSmPtr {
    var m_pData: RefCounterObject?

    /** What the handle's counter and object are once the handle has let go of them. */
    twostate predicate LetGo(c: RefCounterObject?, last: bool)
      reads c, if c == null then {} else {c.owned}
    {
      c != null ==>
        && c.disposed == last
        && (c.owned != null ==> c.owned.deletes == if last then 1 else 0)
    }

    /** The handle lets go: its counter counts one less, and object and counter go with the last. */
    method ReleaseData(ghost hs: set<XLSharedSmPtr>)
      requires this in hs && Counted(hs)
      modifies this, m_pData, if m_pData == null then {} else {m_pData.m_pData}
      ensures Counted(hs) && m_pData == null
      ensures LetGo(old(m_pData), old(m_pData != null && |On(hs, m_pData)| == 1))
    {
      ghost var c := m_pData;
      if m_pData != null {
        assert CounterOk(hs, c);
        ghost var was := On(hs, c);
        m_pData.Release();
        if m_pData.m_pData == null {
          m_pData.disposed := true;
        }
        m_pData := null;
        assert On(hs, c) == was - {this};
        forall h | h in hs && h.m_pData != null ensures CounterOk(hs, h.m_pData) {
          if h.m_pData != c {
            assert On(hs, h.m_pData) == old(On(hs, h.m_pData));
            assert old(CounterOk(hs, h.m_pData));
          } else if |was| == 1 {
            OnlyOne(was, this, h);
          }
        }
      }
    }

    constructor Empty()
      ensures m_pData == null
    {
      m_pData := null;
    }

    /** Construction from an object. */
    constructor Of(data: Target?, ghost hs: set<XLSharedSmPtr>)
      requires Counted(hs) && (data != null ==> data.deletes == 0 && forall h :: h in hs ==> Object(h) != data)
      ensures Counted(hs + {this}) && Object(this) == data && m_pData != null && fresh(m_pData)
    {
      m_pData := null;
      new;
      assert forall h :: h in hs && h.m_pData != null ==> On(hs + {this}, h.m_pData) == On(hs, h.m_pData) && CounterOk(hs, h.m_pData);
      SetData(data, hs + {this});
    }

    /** Takes a new object (or null) under a counter of its own; what was held before is let go. */
    method SetData(data: Target?, ghost hs: set<XLSharedSmPtr>)
      requires this in hs && Counted(hs)
      requires data != null ==> data.deletes == 0 && forall h :: h in hs ==> Object(h) != data
      modifies this, m_pData, if m_pData == null then {} else {m_pData.m_pData}
      ensures Counted(hs) && Object(this) == data && m_pData != null && fresh(m_pData)
      ensures LetGo(old(m_pData), old(m_pData != null && |On(hs, m_pData)| == 1))
    {
      ReleaseData(hs);
      label released:
      var c := new RefCounterObject(data);
      m_pData := c;
      assert On(hs, c) == {this};
      forall h | h in hs && h.m_pData != null ensures CounterOk(hs, h.m_pData) {
        if h.m_pData != c {
          assert On(hs, h.m_pData) == old@released(On(hs, h.m_pData));
          assert old@released(CounterOk(hs, h.m_pData));
        }
      }
    }

    /** The end of the copy constructor and of assignment; a counter of null does not count it. */
    method Share(other: XLSharedSmPtr, ghost hs: set<XLSharedSmPtr>)
      requires other in hs && other != this && Counted(hs) && m_pData == null
      modifies this, other.m_pData
      ensures m_pData == other.m_pData == old(other.m_pData) && WrapsNull(other) == old(WrapsNull(other))
      ensures if WrapsNull(other) then m_pData.m_iCount == 0 else Counted(hs + {this})
    {
      ghost var c := other.m_pData;
      assert c != null ==> CounterOk(hs, c);
      m_pData := other.m_pData;
      if m_pData != null {
        m_pData.AddRef();
        assert On(hs + {this}, c) == old(On(hs, other.m_pData)) + {this};
      }
      ghost var hs' := hs + {this};
      forall h | h in hs' && h.m_pData != null && h.m_pData != c ensures CounterOk(hs', h.m_pData) {
        assert On(hs', h.m_pData) == old(On(hs, h.m_pData));
        assert old(CounterOk(hs, h.m_pData));
      }
    }

    /** A copy shares the counter, and is counted unless the counter is one of null. */
    constructor Copy(other: XLSharedSmPtr, ghost hs: set<XLSharedSmPtr>)
      requires other in hs && Counted(hs)
      modifies other.m_pData
      ensures m_pData == other.m_pData == old(other.m_pData) && WrapsNull(other) == old(WrapsNull(other))
      ensures if WrapsNull(other) then m_pData.m_iCount == 0 else Counted(hs + {this})
    {
      m_pData := null;
      new;
      assert forall h :: h in hs && h.m_pData != null ==> On(hs, h.m_pData) == old(On(hs, h.m_pData)) && CounterOk(hs, h.m_pData);
      Share(other, hs);
    }

    /** Assignment: lets go of what was held, even if it is the same, and shares the other's. */
    method Assign(other: XLSharedSmPtr, ghost hs: set<XLSharedSmPtr>)
      requires this in hs && other in hs && Counted(hs)
      modifies this, m_pData, other.m_pData, if m_pData == null then {} else {m_pData.m_pData}
      ensures m_pData == other.m_pData == old(other.m_pData) && WrapsNull(other) == old(WrapsNull(other))
      ensures if other != this && WrapsNull(other) then m_pData.m_iCount == 0 else Counted(hs)
      ensures old(m_pData) != old(other.m_pData) ==> LetGo(old(m_pData), old(m_pData != null && |On(hs, m_pData)| == 1))
      ensures old(m_pData) == old(other.m_pData) ==> LetGo(m_pData, false)
    {
      if this == other {
        assert m_pData != null ==> CounterOk(hs, m_pData);
        return;
      }
      if m_pData == other.m_pData && m_pData != null {
        assert CounterOk(hs, m_pData);
        SharedByTwo(On(hs, m_pData), this, other);
      }
      ReleaseData(hs);
      assert other.m_pData != null ==> CounterOk(hs, other.m_pData);
      Share(other, hs);
      assert hs + {this} == hs;
    }

    /** The destructor. */
    method Destroy(ghost hs: set<XLSharedSmPtr>)
      requires this in hs && Counted(hs)
      modifies this, m_pData, if m_pData == null then {} else {m_pData.m_pData}
      ensures Counted(hs - {this}) && m_pData == null
      ensures LetGo(old(m_pData), old(m_pData != null && |On(hs, m_pData)| == 1))
    {
      ReleaseData(hs);
      forall h | h in hs - {this} && h.m_pData != null ensures CounterOk(hs - {this}, h.m_pData) {
        assert On(hs - {this}, h.m_pData) == On(hs, h.m_pData);
        assert CounterOk(hs, h.m_pData);
      }
    }
  }

  // ---------------------------------------------------------------- the objects as a state of HandleRuns

  type HeapState = HR.Heap<XLSharedSmPtr, RefCounterObject, Target>
  type HandleOp = HR.Op<XLSharedSmPtr, RefCounterObject, Target>

  function Given(data: Target?): Option<Target>
  {
    if data == null then None else Some(data)
  }

  ghost function CounterOf(h: XLSharedSmPtr): Option<RefCounterObject>
    reads h
  {
    if h.m_pData == null then None else Some(h.m_pData)
  }

  ghost function Counters(hs: set<XLSharedSmPtr>): set<RefCounterObject>
    reads hs
  {
    set h | h in hs && h.m_pData != null :: h.m_pData
  }

  ghost function HandlesOf(hs: set<XLSharedSmPtr>): map<XLSharedSmPtr, Option<RefCounterObject>>
    reads hs
  {
    map h | h in hs :: CounterOf(h)
  }

  /** The handles that exist with their counters; which objects were adopted and freed is history. */
  ghost function HeapOf(hs: set<XLSharedSmPtr>, adopted: set<Target>, freed: seq<Target>): HeapState
    reads hs, Counters(hs)
  {
    HR.Heap(map c | c in Counters(hs) :: HR.Counter(c.m_iCount, Given(c.m_pData)), HandlesOf(hs), adopted, freed)
  }

  lemma HeapGood(hs: set<XLSharedSmPtr>, adopted: set<Target>, freed: seq<Target>)
    requires Counted(hs)
    ensures HR.CountersGood(HeapOf(hs, adopted, freed))
  {
    var s := HeapOf(hs, adopted, freed);
    forall c | c in s.counters ensures HR.CounterOk(s, c) {
      assert HR.On(s, c) == On(hs, c);
      var h :| h in hs && h.m_pData == c;
      assert CounterOk(hs, c) && h in On(hs, c);
    }
  }

  /** The handles are where an operation leaves them, and the counters are right: so they are a state it leaves. */
  lemma HeapAfter(s: HeapState, op: HandleOp, hs: set<XLSharedSmPtr>)
    requires HR.Good(s) && HR.Allowed(s, op) && Counted(hs) && HandlesOf(hs) == HR.HandlesAfter(s, op)
    requires forall c :: c in s.counters ==> s.counters[c].obj == Given(c.owned)
    requires forall c :: c in Counters(hs) && c !in s.counters ==> (op.New? || op.SetData?) && op.obj == Given(c.owned)
    ensures var s' := HR.Step(s, op); s'.Some? && s'.value == HeapOf(hs, s'.value.adopted, s'.value.freed)
  {
    var t := HeapOf(hs, s.adopted, s.freed);
    HeapGood(hs, s.adopted, s.freed);
    forall c | c in Counters(hs) ensures t.counters[c].obj == Given(c.owned) {
      var h :| h in hs && h.m_pData == c;
      assert CounterOk(hs, c);
    }
    hide Counted, HR.Good, HR.CountersGood, HR.Step, HR.Allowed, HR.HandlesAfter;
    HR.StepDetermined(s, op, t);
  }

  /** Every object ever given to a handle has been deleted as often as `freed` has it. */
  ghost predicate Booked(adopted: set<Target>, freed: seq<Target>)
    reads adopted
  {
    forall t :: t in adopted ==> t.deletes == multiset(freed)[t]
  }

  /** `hs` are the handles that exist; counters, handles and deletions in the heap are a good state of HandleRuns. */
  ghost predicate Tracked(hs: set<XLSharedSmPtr>, adopted: set<Target>, freed: seq<Target>)
    reads hs, Counters(hs), Reached(hs), adopted
  {
    Counted(hs) && HR.Good(HeapOf(hs, adopted, freed)) && Booked(adopted, freed)
  }

  lemma HeapKnown(hs: set<XLSharedSmPtr>, adopted: set<Target>, freed: seq<Target>)
    requires Tracked(hs, adopted, freed)
    ensures var s := HeapOf(hs, adopted, freed);
            && Counted(hs) && HR.Good(s) && Known(s) && Booked(adopted, freed) && s.adopted == adopted && s.freed == freed
            && s.counters.Keys == Counters(hs) && s.handles.Keys == hs && forall g :: g in hs ==> s.handles[g] == CounterOf(g)
  {
    forall c | c in Counters(hs) ensures Given(c.m_pData) == Given(c.owned) {
      var h :| h in hs && h.m_pData == c;
      assert CounterOk(hs, c);
    }
  }

  /** What a handle is on, and the last to refer to; `from` is a handle it may be assigned from. */
  lemma HandleOfHeap(hs: set<XLSharedSmPtr>, adopted: set<Target>, freed: seq<Target>, h: XLSharedSmPtr, from: XLSharedSmPtr)
    requires Tracked(hs, adopted, freed) && h in hs && from in hs
    ensures var s := HeapOf(hs, adopted, freed);
            && (s.handles[h].Some? ==> s.handles[h].value in s.counters)
            && HR.LastObject(s, h) == (if h.m_pData != null && |On(hs, h.m_pData)| == 1 then Given(h.m_pData.owned) else None)
            && (h != from && h.m_pData == from.m_pData ==> HR.LastObject(s, h) == None)
            && HR.WrapsNull(s, from) == WrapsNull(from)
    ensures h.m_pData != null ==> h.m_pData.m_pData == h.m_pData.owned
    ensures h.m_pData != null && h.m_pData.owned != null ==> multiset(freed)[h.m_pData.owned] == 0
  {
    var s := HeapOf(hs, adopted, freed);
    HeapKnown(hs, adopted, freed);
    forall g | g in hs && g.m_pData != null ensures HR.On(s, g.m_pData) == On(hs, g.m_pData) && CounterOk(hs, g.m_pData) {
    }
    if h.m_pData != null { assert s.counters[h.m_pData].obj == Given(h.m_pData.owned); }
    if h != from && h.m_pData == from.m_pData { HR.SharedIsNotLast(s, h, from); }
  }

  /** A new object is held by no handle. */
  lemma NewIsUnheld(hs: set<XLSharedSmPtr>, adopted: set<Target>, freed: seq<Target>, data: Target?)
    requires Counted(hs) && HR.Good(HeapOf(hs, adopted, freed)) && data !in adopted
    ensures data != null ==> data !in freed && forall h :: h in hs ==> Object(h) != data
  {
    var s := HeapOf(hs, adopted, freed);
    forall h | h in hs && h.m_pData != null ensures h.m_pData.owned == null || h.m_pData.owned in adopted {
      assert CounterOk(hs, h.m_pData);
      assert s.counters[h.m_pData].obj == Given(h.m_pData.owned);
    }
  }

  /** One handle is on another counter than before. */
  lemma HandleMoved(was: map<XLSharedSmPtr, Option<RefCounterObject>>, h: XLSharedSmPtr, hs: set<XLSharedSmPtr>)
    requires was.Keys + {h} == hs + {h} && forall g :: g in hs && g != h ==> g in was && CounterOf(g) == was[g]
    ensures h in hs ==> HandlesOf(hs) == was[h := CounterOf(h)]
    ensures h !in hs ==> HandlesOf(hs) == was - {h}
  {
  }

  /** No counter has another object than the one it was made for. */
  ghost predicate Known(s: HeapState)
  {
    forall c :: c in s.counters ==> s.counters[c].obj == Given(c.owned)
  }

  /** The counter is not one of s, nor is its object. */
  ghost predicate New(s: HeapState, c: RefCounterObject)
  {
    c !in s.counters && c.owned !in s.adopted && c.owned !in s.freed
  }

  /** The heap is what the operation makes of s. */
  ghost predicate Followed(s: HeapState, op: HandleOp, hs: set<XLSharedSmPtr>)
    reads hs, Counters(hs), Reached(hs), if HR.Step(s, op).Some? then HR.Step(s, op).value.adopted else {}
  {
    var s' := HR.Step(s, op);
    && s'.Some? && s'.value == HeapOf(hs, s'.value.adopted, s'.value.freed)
    && Tracked(hs, s'.value.adopted, s'.value.freed)
  }

  /** The handles are where an operation leaves them, the counters are right, and what it deletes was deleted. */
  lemma HeapFollows(s: HeapState, op: HandleOp, hs: set<XLSharedSmPtr>)
    requires HR.Good(s) && HR.Allowed(s, op) && Counted(hs) && HandlesOf(hs) == HR.HandlesAfter(s, op)
    requires Known(s)
    requires op.New? || op.SetData? ==> op.obj == Given(op.c.owned)
    requires forall t :: t in s.adopted + HR.Adopts(s, op) ==>
               t.deletes == multiset(s.freed)[t] + (if t in HR.Frees(s, op) then 1 else 0)
    ensures Followed(s, op, hs)
  {
    forall c | c in Counters(hs) && c !in s.counters ensures (op.New? || op.SetData?) && op.c == c {
      var h :| h in hs && h.m_pData == c;
      HR.NewCounterIs(s, op, h, c);
    }
    HR.StepKeepsGood(s, op);
    HR.StepFrees(s, op);
    hide HR.Good, HR.Allowed, HR.HandlesAfter, HR.Frees, HR.Adopts, Counted;
    HeapAfter(s, op, hs);
    assert forall t :: multiset(s.freed + HR.Frees(s, op))[t] == multiset(s.freed)[t] + if t in HR.Frees(s, op) then 1 else 0;
  }

  lemma OfFollows(s: HeapState, h: XLSharedSmPtr, c: RefCounterObject, hs: set<XLSharedSmPtr>)
    requires HR.Good(s) && Known(s) && Counted(hs) && h !in s.handles && New(s, c)
    requires HandlesOf(hs) == s.handles[h := Some(c)]
    requires forall t :: t in s.adopted || t == c.owned ==> t.deletes == multiset(s.freed)[t]
    ensures Followed(s, HR.New(h, c, Given(c.owned)), hs)
  {
    hide HR.Good, Counted, HandlesOf, HR.LastObject;
    HeapFollows(s, HR.New(h, c, Given(c.owned)), hs);
  }

  lemma CopyFollows(s: HeapState, h: XLSharedSmPtr, from: XLSharedSmPtr, hs: set<XLSharedSmPtr>)
    requires HR.Good(s) && Known(s) && Counted(hs) && h !in s.handles && from in s.handles && !HR.WrapsNull(s, from)
    requires HandlesOf(hs) == s.handles[h := s.handles[from]]
    requires forall t :: t in s.adopted ==> t.deletes == multiset(s.freed)[t]
    ensures Followed(s, HR.Copy(h, from), hs)
  {
    hide HR.Good, Counted, HandlesOf, HR.LastObject;
    HeapFollows(s, HR.Copy(h, from), hs);
  }

  lemma AssignFollows(s: HeapState, h: XLSharedSmPtr, from: XLSharedSmPtr, hs: set<XLSharedSmPtr>)
    requires HR.Good(s) && Known(s) && Counted(hs) && h in s.handles && from in s.handles && (h == from || !HR.WrapsNull(s, from))
    requires HandlesOf(hs) == s.handles[h := s.handles[from]]
    requires forall t :: t in s.adopted ==> t.deletes == multiset(s.freed)[t] + if h != from && HR.LastObject(s, h) == Some(t) then 1 else 0
    ensures Followed(s, HR.Assign(h, from), hs)
  {
    hide HR.Good, Counted, HandlesOf, HR.LastObject;
    HeapFollows(s, HR.Assign(h, from), hs);
  }

  lemma SetDataFollows(s: HeapState, h: XLSharedSmPtr, c: RefCounterObject, hs: set<XLSharedSmPtr>)
    requires HR.Good(s) && Known(s) && Counted(hs) && h in s.handles && New(s, c)
    requires HandlesOf(hs) == s.handles[h := Some(c)]
    requires forall t :: t in s.adopted || t == c.owned ==> t.deletes == multiset(s.freed)[t] + if HR.LastObject(s, h) == Some(t) then 1 else 0
    ensures Followed(s, HR.SetData(h, c, Given(c.owned)), hs)
  {
    hide HR.Good, Counted, HandlesOf, HR.LastObject;
    HeapFollows(s, HR.SetData(h, c, Given(c.owned)), hs);
  }

  lemma DestroyFollows(s: HeapState, h: XLSharedSmPtr, hs: set<XLSharedSmPtr>)
    requires HR.Good(s) && Known(s) && Counted(hs) && h in s.handles
    requires HandlesOf(hs) == s.handles - {h}
    requires forall t :: t in s.adopted ==> t.deletes == multiset(s.freed)[t] + if HR.LastObject(s, h) == Some(t) then 1 else 0
    ensures Followed(s, HR.Drop(h), hs)
  {
    hide HR.Good, Counted, HandlesOf, HR.LastObject;
    HeapFollows(s, HR.Drop(h), hs);
  }

  lemma EmptyFollows(s: HeapState, h: XLSharedSmPtr, hs: set<XLSharedSmPtr>)
    requires HR.Good(s) && Known(s) && Counted(hs) && h !in s.handles
    requires HandlesOf(hs) == s.handles[h := None]
    requires forall t :: t in s.adopted ==> t.deletes == multiset(s.freed)[t]
    ensures Followed(s, HR.Empty(h), hs)
  {
    hide HR.Good, Counted, HandlesOf, HR.LastObject;
    HeapFollows(s, HR.Empty(h), hs);
  }

  // Every method is an operation: each of these makes one call and uses nothing of it but its
  // promise. So what HandleRuns proves of whole runs, the counts and that every object is deleted
  // exactly once, holds of the objects in the heap.

  method EmptyIsOperation(hs: set<XLSharedSmPtr>,
      ghost adopted: set<Target>, ghost freed: seq<Target>) returns (h: XLSharedSmPtr)
    requires Tracked(hs, adopted, freed)
    ensures fresh(h) && Followed(old(HeapOf(hs, adopted, freed)), HR.Empty(h), hs + {h})
  {
    hide Counted, CounterOk, Reached, On, HeapOf, HandlesOf, Tracked, Followed, Known, Object, HR.Good, HR.LastObject, HR.Step;
    ghost var s := HeapOf(hs, adopted, freed);
    HeapKnown(hs, adopted, freed);
    h := new XLSharedSmPtr.Empty();
    EmptyCounted(hs, h);
    HandleMoved(s.handles, h, hs + {h});
    EmptyFollows(s, h, hs + {h});
  }

  lemma EmptyCounted(hs: set<XLSharedSmPtr>, h: XLSharedSmPtr)
    requires Counted(hs) && h.m_pData == null
    ensures Counted(hs + {h})
  {
    forall g | g in hs && g.m_pData != null ensures On(hs + {h}, g.m_pData) == On(hs, g.m_pData) && CounterOk(hs, g.m_pData) {
    }
  }

  method OfIsOperation(hs: set<XLSharedSmPtr>, data: Target?,
      ghost adopted: set<Target>, ghost freed: seq<Target>) returns (h: XLSharedSmPtr)
    requires Tracked(hs, adopted, freed) && data !in adopted && (data != null ==> data.deletes == 0)
    ensures fresh(h) && h.m_pData != null && Followed(old(HeapOf(hs, adopted, freed)), HR.New(h, h.m_pData, Given(data)), hs + {h})
  {
    hide Counted, CounterOk, Reached, On, HeapOf, HandlesOf, Tracked, Followed, Known, HR.Good, HR.LastObject, HR.Step;
    ghost var s := HeapOf(hs, adopted, freed);
    HeapKnown(hs, adopted, freed);
    NewIsUnheld(hs, adopted, freed, data);
    h := new XLSharedSmPtr.Of(data, hs);
    HandleMoved(s.handles, h, hs + {h});
    OfFollows(s, h, h.m_pData, hs + {h});
  }

  method CopyIsOperation(hs: set<XLSharedSmPtr>, from: XLSharedSmPtr,
      ghost adopted: set<Target>, ghost freed: seq<Target>) returns (h: XLSharedSmPtr)
    requires Tracked(hs, adopted, freed) && from in hs && !WrapsNull(from)
    modifies from.m_pData
    ensures fresh(h) && Followed(old(HeapOf(hs, adopted, freed)), HR.Copy(h, from), hs + {h})
  {
    hide Counted, CounterOk, Counters, Reached, On, HeapOf, HandlesOf, Tracked, Followed, Known, Object, HR.Good, HR.LastObject, HR.Step;
    ghost var s := HeapOf(hs, adopted, freed);
    HeapKnown(hs, adopted, freed);
    HandleOfHeap(hs, adopted, freed, from, from);
    h := new XLSharedSmPtr.Copy(from, hs);
    HandleMoved(s.handles, h, hs + {h});
    CopyFollows(s, h, from, hs + {h});
  }

  method AssignIsOperation(hs: set<XLSharedSmPtr>, h: XLSharedSmPtr, from: XLSharedSmPtr,
      ghost adopted: set<Target>, ghost freed: seq<Target>)
    requires Tracked(hs, adopted, freed) && h in hs && from in hs && (h == from || !WrapsNull(from))
    modifies h, h.m_pData, from.m_pData, if h.m_pData == null then {} else {h.m_pData.m_pData}
    ensures Followed(old(HeapOf(hs, adopted, freed)), HR.Assign(h, from), hs)
  {
    hide Counted, CounterOk, Counters, Reached, On, HeapOf, HandlesOf, Tracked, Followed, Known, Object, HR.Good, HR.LastObject, HR.Step;
    ghost var s := HeapOf(hs, adopted, freed);
    HeapKnown(hs, adopted, freed);
    HandleOfHeap(hs, adopted, freed, h, from);
    h.Assign(from, hs);
    HandleMoved(s.handles, h, hs);
    AssignFollows(s, h, from, hs);
  }

  method SetDataIsOperation(hs: set<XLSharedSmPtr>, h: XLSharedSmPtr, data: Target?,
      ghost adopted: set<Target>, ghost freed: seq<Target>)
    requires Tracked(hs, adopted, freed) && h in hs && data !in adopted && (data != null ==> data.deletes == 0)
    modifies h, h.m_pData, if h.m_pData == null then {} else {h.m_pData.m_pData}
    ensures h.m_pData != null && Followed(old(HeapOf(hs, adopted, freed)), HR.SetData(h, h.m_pData, Given(data)), hs)
  {
    hide Counted, CounterOk, Reached, On, HeapOf, HandlesOf, Tracked, Followed, Known, HR.Good, HR.LastObject, HR.Step;
    ghost var s := HeapOf(hs, adopted, freed);
    HeapKnown(hs, adopted, freed);
    HandleOfHeap(hs, adopted, freed, h, h);
    NewIsUnheld(hs, adopted, freed, data);
    h.SetData(data, hs);
    HandleMoved(s.handles, h, hs);
    SetDataFollows(s, h, h.m_pData, hs);
  }

  method DestroyIsOperation(hs: set<XLSharedSmPtr>, h: XLSharedSmPtr,
      ghost adopted: set<Target>, ghost freed: seq<Target>)
    requires Tracked(hs, adopted, freed) && h in hs
    modifies h, h.m_pData, if h.m_pData == null then {} else {h.m_pData.m_pData}
    ensures Followed(old(HeapOf(hs, adopted, freed)), HR.Drop(h), hs - {h})
  {
    hide Counted, CounterOk, Counters, Reached, On, HeapOf, HandlesOf, Tracked, Followed, Known, Object, HR.Good, HR.LastObject, HR.Step;
    ghost var s := HeapOf(hs, adopted, freed);
    HeapKnown(hs, adopted, freed);
    HandleOfHeap(hs, adopted, freed, h, h);
    h.Destroy(hs);
    HandleMoved(s.handles, h, hs - {h});
    DestroyFollows(s, h, hs - {h});
  }

  /**
   * So in the heap: no object is deleted twice, none while a handle refers to it, and every object
   * ever given to a handle has been deleted once no handle is left.
   */
  lemma DeletedOnce(hs: set<XLSharedSmPtr>, adopted: set<Target>, freed: seq<Target>)
    requires Tracked(hs, adopted, freed)
    ensures forall t :: t in adopted ==> 0 <= t.deletes <= 1
    ensures forall h :: h in hs && Object(h) != null ==> Object(h) in adopted && Object(h).deletes == 0
    ensures hs == {} ==> forall t :: t in adopted ==> t.deletes == 1
  {
    HeapKnown(hs, adopted, freed);
    var s := HeapOf(hs, adopted, freed);
    forall t | t in adopted ensures t.deletes == if t in freed then 1 else 0 {
      Occurs(freed, t);
    }
    forall h | h in hs && Object(h) != null ensures Object(h) in adopted && Object(h) !in freed {
      assert s.counters[h.m_pData].obj == Given(h.m_pData.owned);
    }
  }

  lemma {:induction false} Occurs<O>(s: seq<O>, o: O)
    requires forall i, j :: 0 <= i < j < |s| ==> s[i] != s[j]
    ensures multiset(s)[o] == if o in s then 1 else 0
  {
    if s != [] {
      Occurs(s[1..], o);
      assert s == [s[0]] + s[1..];
    }
  }

  /** A heap without handles to begin with. */
  lemma NothingTracked()
    ensures Tracked({}, {}, [])
  {
  }
}
