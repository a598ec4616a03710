/** The objects of IObserver.h whose registrations module Observer describes. */
module ObserverObjects {
  import opened Basics
  import opened Observer

  class ISubject2 {
    var m_list: seq<Entry<IObserver2>>

    constructor ()
      ensures m_list == []
    {
      m_list := [];
    }

    /** std::multimap::insert puts the new entry behind those with the same key. */
    method Register(o: IObserver2?, condition: X)
      modifies this
      ensures m_list == if o == null then old(m_list) else Inserted(old(m_list), Entry(condition, o))
    {
      if o == null { return; }
      var k := 0;
      while k < |m_list| && m_list[k].key <= condition
        invariant k <= UpperBound(m_list, condition)
      {
        k := k + 1;
      }
      m_list := m_list[..k] + [Entry(condition, o)] + m_list[k..];
    }

    /** Erases the entry an iterator stands at; the entries behind it move down by one place. */
    method Erase(at: nat)
      requires at < |m_list|
      modifies this
      ensures m_list == ErasedAt(old(m_list), at)
    {
      m_list := m_list[..at] + m_list[at + 1..];
    }

    method EntriesOf(o: IObserver2) returns (itrs: seq<nat>)
      ensures Marks(m_list, |m_list|, o, itrs)
    {
      hide Marks;
      itrs := [];
      var itr: nat := 0;
      MarksNone(m_list, o);
      while itr < |m_list|
        invariant itr <= |m_list| && Marks(m_list, itr, o, itrs)
      {
        MarksGrow(m_list, itr, o, itrs);
        if m_list[itr].observer == o { itrs := itrs + [itr]; }
        itr := itr + 1;
      }
    }

    method EraseEach(itrs: seq<nat>, ghost o: IObserver2)
      requires Marks(m_list, |m_list|, o, itrs)
      modifies this
      ensures m_list == Without(old(m_list), o)
    {
      hide *;
      ghost var l := m_list;
      var i: nat := 0;
      EraseStart(l, o, itrs);
      while i < |itrs|
        invariant i <= |itrs| && ErasedTo(l, o, itrs, i, m_list)
      {
        EraseNext(l, o, itrs, i, m_list);
        Erase(itrs[i] - i);
        i := i + 1;
      }
      EraseLast(l, o, itrs, m_list);
    }

    method DeRegisterAll(o: IObserver2?)
      modifies this
      ensures m_list == if o == null then old(m_list) else Without(old(m_list), o)
    {
      if o == null { return; }
      var deletItr := EntriesOf(o);
      EraseEach(deletItr, o);
    }

    method DeRegister(o: IObserver2?, condition: X)
      requires SortedKeys(m_list)
      modifies this
      ensures m_list == if o == null then old(m_list) else ErasedOne(old(m_list), Entry(condition, o))
    {
      if o == null { return; }
      ghost var l := m_list;
      ghost var e: Entry<IObserver2> := Entry(condition, o);
      var itr, last := LowerBound(m_list, condition), UpperBound(m_list, condition);
      RangeHasKey(m_list, condition);
      while itr < last
        invariant LowerBound(l, condition) <= itr <= last && m_list == l
        invariant e !in l[..itr]
      {
        if m_list[itr].observer == o {
          ErasedOneAt(l, e, itr);
          Erase(itr);
          return;
        }
        itr := itr + 1;
      }
      ErasedOneAt(l, e, |l|);
    }
  }

  class IObserver2 {
    var m_Subject: ISubject2?
    var m_RegisteredList: set<X>

    ghost function Subjects(): set<ISubject2>
      reads this
    {
      if m_Subject == null then {} else {m_Subject}
    }

    ghost function View(): View<ISubject2, IObserver2>
      reads this, Subjects()
    {
      Observer.View(OptionOf(m_Subject), m_RegisteredList, if m_Subject == null then [] else m_Subject.m_list)
    }

    constructor (subject: ISubject2?, conditions: seq<X>)
      modifies if subject == null then {} else {subject}
      ensures m_Subject == subject
      ensures View() == AfterRegisters(Observer.View(OptionOf(subject), {}, if subject == null then [] else old(subject.m_list)),
                                       this, conditions)
    {
      m_Subject := subject;
      m_RegisteredList := {};
      new;
      hide Inserted, AfterRegister;
      ghost var v := View();
      if m_Subject != null {
        var i := 0;
        while i < |conditions|
          invariant i <= |conditions| && m_Subject == subject
          invariant View() == AfterRegisters(v, this, conditions[..i])
        {
          Register(conditions[i]);
          assert conditions[..i + 1][..i] == conditions[..i];
          i := i + 1;
        }
        assert conditions[..|conditions|] == conditions;
      } else {
        NoSubject(v, this, conditions);
      }
    }

    method Register(condition: X)
      modifies `m_RegisteredList, Subjects()
      ensures View() == AfterRegister(old(View()), this, condition)
    {
      if m_Subject != null {
        if condition !in m_RegisteredList {
          m_Subject.Register(this, condition);
          m_RegisteredList := m_RegisteredList + {condition};
        }
      }
    }

    method DeRegister(condition: X)
      requires SortedKeys(View().entries)
      modifies `m_RegisteredList, Subjects()
      ensures View() == AfterDeRegister(old(View()), this, condition)
    {
      if m_Subject != null {
        m_Subject.DeRegister(this, condition);
      }
      m_RegisteredList := m_RegisteredList - {condition};
    }

    method Deregister()
      modifies this, Subjects()
      ensures m_Subject == null && m_RegisteredList == {}
      ensures old(m_Subject) != null ==> old(m_Subject).m_list == Without(old(m_Subject.m_list), this)
    {
      if m_Subject != null { m_Subject.DeRegisterAll(this); }
      m_RegisteredList := {};
      m_Subject := null;
    }

    method SetSubject(subject: ISubject2?)
      modifies this, Subjects()
      ensures m_Subject == subject && m_RegisteredList == {}
      ensures old(m_Subject) != null ==> old(m_Subject).m_list == Without(old(m_Subject.m_list), this)
    {
      if m_Subject != null { m_Subject.DeRegisterAll(this); }
      m_RegisteredList := {};
      m_Subject := subject;
    }

    /** The destructor. */
    method Destroy()
      modifies Subjects()
      ensures m_Subject != null ==> m_Subject.m_list == Without(old(m_Subject.m_list), this)
    {
      if m_Subject != null { m_Subject.DeRegisterAll(this); }
    }
  }

  function OptionOf(s: ISubject2?): Option<ISubject2>
  {
    if s == null then None else Some(s)
  }

  /** The places among the first n at which o stands, in order. */
  ghost predicate Marks<O>(l: seq<Entry<O>>, n: nat, o: O, marks: seq<nat>)
  {
    && n <= |l|
    && (forall i, j :: 0 <= i < j < |marks| ==> marks[i] < marks[j])
    && (forall i :: 0 <= i < |marks| ==> marks[i] < n && l[marks[i]].observer == o)
    && (forall k :: 0 <= k < n && l[k].observer == o ==> k in marks)
  }

  lemma MarksNone<O>(l: seq<Entry<O>>, o: O)
    ensures Marks(l, 0, o, [])
  {
  }

  lemma MarksGrow<O>(l: seq<Entry<O>>, n: nat, o: O, marks: seq<nat>)
    requires Marks(l, n, o, marks) && n < |l|
    ensures Marks(l, n + 1, o, if l[n].observer == o then marks + [n] else marks)
  {
    if l[n].observer == o {
      forall k | 0 <= k < n + 1 && l[k].observer == o ensures k in marks + [n] {}
    }
  }

  lemma SkipTo<O>(l: seq<Entry<O>>, o: O, a: nat, b: nat)
    requires a <= b <= |l| && forall k :: a <= k < b ==> l[k].observer != o
    ensures Without(l[..b], o) == Without(l[..a], o) + l[a..b]
  {
    assert l[..b] == l[..a] + l[a..b];
    WithoutConcat(l[..a], l[a..b], o);
    WithoutAbsent(l[a..b], o);
  }

  lemma SkipOver<O>(l: seq<Entry<O>>, o: O, a: nat)
    requires a < |l| && l[a].observer == o
    ensures Without(l[..a + 1], o) == Without(l[..a], o)
  {
    assert l[..a + 1] == l[..a] + [l[a]];
    WithoutConcat(l[..a], [l[a]], o);
    assert Without([l[a]], o) == [];
  }

  ghost function ErasedAt<O>(l: seq<Entry<O>>, at: nat): seq<Entry<O>>
    requires at < |l|
  {
    l[..at] + l[at + 1..]
  }

  /** How much of the list is dealt with once the first i entries of o are erased. */
  ghost function Done(marks: seq<nat>, i: nat): nat
    requires i <= |marks|
  {
    if i == 0 then 0 else marks[i - 1] + 1
  }

  /** `now` is the list l without the first i entries of o. */
  ghost predicate ErasedTo<O>(l: seq<Entry<O>>, o: O, marks: seq<nat>, i: nat, now: seq<Entry<O>>)
  {
    && Marks(l, |l|, o, marks) && i <= |marks| && Done(marks, i) <= |l|
    && |Without(l[..Done(marks, i)], o)| == Done(marks, i) - i
    && now == Without(l[..Done(marks, i)], o) + l[Done(marks, i)..]
  }

  lemma EraseStart<O>(l: seq<Entry<O>>, o: O, marks: seq<nat>)
    requires Marks(l, |l|, o, marks)
    ensures ErasedTo(l, o, marks, 0, l)
  {
  }

  /** Between two neighbouring places of o there is no further one. */
  lemma Between<O>(l: seq<Entry<O>>, o: O, marks: seq<nat>, i: nat)
    requires Marks(l, |l|, o, marks) && i <= |marks|
    ensures Done(marks, i) <= (if i < |marks| then marks[i] else |l|) <= |l|
    ensures i < |marks| ==> marks[i] < |l| && l[marks[i]].observer == o
    ensures forall k :: Done(marks, i) <= k < (if i < |marks| then marks[i] else |l|) ==> l[k].observer != o
  {
    forall k | Done(marks, i) <= k < (if i < |marks| then marks[i] else |l|) ensures l[k].observer != o {
      assert forall j :: 0 <= j < |marks| ==> marks[j] != k;
    }
  }

  lemma EraseNext<O>(l: seq<Entry<O>>, o: O, marks: seq<nat>, i: nat, now: seq<Entry<O>>)
    requires ErasedTo(l, o, marks, i, now) && i < |marks|
    ensures 0 <= marks[i] - i < |now|
    ensures ErasedTo(l, o, marks, i + 1, ErasedAt(now, marks[i] - i))
  {
    hide Marks, Without;
    var (done, next) := (Done(marks, i), marks[i]);
    Between(l, o, marks, i);
    SkipTo(l, o, done, next);
    SkipOver(l, o, next);
    var kept := Without(l[..next], o);
    assert l[done..] == l[done..next] + [l[next]] + l[next + 1..];
    assert now == kept + ([l[next]] + l[next + 1..]);
  }

  lemma EraseLast<O>(l: seq<Entry<O>>, o: O, marks: seq<nat>, now: seq<Entry<O>>)
    requires ErasedTo(l, o, marks, |marks|, now)
    ensures now == Without(l, o)
  {
    hide Marks, Without;
    Between(l, o, marks, |marks|);
    SkipTo(l, o, Done(marks, |marks|), |l|);
    assert l[..|l|] == l;
  }

  /** In a sorted list the entries between the two bounds are those with the key. */
  lemma RangeHasKey<O>(l: seq<Entry<O>>, c: X)
    requires SortedKeys(l)
    ensures LowerBound(l, c) <= UpperBound(l, c)
    ensures forall i :: 0 <= i < |l| ==> (l[i].key == c <==> LowerBound(l, c) <= i < UpperBound(l, c))
  {
    hide LowerBound, UpperBound;
  }

  lemma {:induction false} NoSubject<S, O>(v: View<S, O>, o: O, cs: seq<X>)
    requires v.subject.None?
    ensures AfterRegisters(v, o, cs) == v
  {
    if cs != [] { NoSubject(v, o, cs[..|cs| - 1]); }
  }

  // ---------------------------------------------------------------- the objects as a world

  /** The living objects as module Observer sees them. */
  ghost function WorldOf(subjects: set<ISubject2>, observers: set<IObserver2>): World<ISubject2, IObserver2>
    reads subjects, observers
  {
    World(map s | s in subjects :: s.m_list, map o | o in observers :: Obs(OptionOf(o.m_Subject), o.m_RegisteredList))
  }

  /** Nothing changed but observer o and the subject it had. */
  twostate predicate OnlyAround(o: IObserver2, subjects: set<ISubject2>, observers: set<IObserver2>)
    reads subjects, observers
  {
    && (forall p :: p in observers && p != o ==> p.m_Subject == old(p.m_Subject) && p.m_RegisteredList == old(p.m_RegisteredList))
    && (forall s :: s in subjects && s != old(o.m_Subject) ==> s.m_list == old(s.m_list))
  }

  /** What IObserver2.Register promises is the operation of module Observer. */
  twostate lemma RegisterIsOperation(o: IObserver2, c: X, subjects: set<ISubject2>, observers: set<IObserver2>)
    requires OnlyAround(o, subjects, observers) && o in observers
    requires o.m_Subject == old(o.m_Subject) && (o.m_Subject != null ==> o.m_Subject in subjects)
    requires o.View() == AfterRegister(old(o.View()), o, c)
    ensures WorldOf(subjects, observers) == Apply(old(WorldOf(subjects, observers)), Op.Register(o, c))
  {
    hide Inserted;
  }

  twostate lemma DeRegisterIsOperation(o: IObserver2, c: X, subjects: set<ISubject2>, observers: set<IObserver2>)
    requires OnlyAround(o, subjects, observers) && o in observers
    requires o.m_Subject == old(o.m_Subject) && (o.m_Subject != null ==> o.m_Subject in subjects)
    requires o.View() == AfterDeRegister(old(o.View()), o, c)
    ensures WorldOf(subjects, observers) == Apply(old(WorldOf(subjects, observers)), Op.DeRegister(o, c))
  {
    hide ErasedOne;
  }

  /** So is what Deregister (with no subject) and SetSubject promise, and what the destructor does. */
  twostate lemma LeavingIsOperation(o: IObserver2, subject: ISubject2?, subjects: set<ISubject2>, observers: set<IObserver2>)
    requires OnlyAround(o, subjects, observers) && o in observers
    requires old(o.m_Subject) != null ==> old(o.m_Subject) in subjects && old(o.m_Subject).m_list == Without(old(o.m_Subject.m_list), o)
    requires subject != null ==> subject in subjects
    requires o.m_Subject == subject && o.m_RegisteredList == {}
    ensures WorldOf(subjects, observers) == Apply(old(WorldOf(subjects, observers)), Op.SetSubject(o, OptionOf(subject)))
  {
    hide Without;
    var w := old(WorldOf(subjects, observers));
    assert WorldOf(subjects, observers).lists == Put(w, o, AfterLeaving(ViewOf(w, o), o)).lists;
  }

  twostate lemma DestructionIsOperation(o: IObserver2, subjects: set<ISubject2>, observers: set<IObserver2>)
    requires OnlyAround(o, subjects, observers) && o in observers
    requires old(o.m_Subject) != null ==> old(o.m_Subject) in subjects && old(o.m_Subject).m_list == Without(old(o.m_Subject.m_list), o)
    ensures WorldOf(subjects, observers - {o}) == Apply(old(WorldOf(subjects, observers)), Op.Destroy(o))
  {
    hide Without;
    var w := old(WorldOf(subjects, observers));
    var w' := Put(w, o, AfterLeaving(ViewOf(w, o), o));
    assert w'.observers - {o} == w.observers - {o};
    assert WorldOf(subjects, observers - {o}).lists == w'.lists;
    hide AfterLeaving, ViewOf;
    assert WorldOf(subjects, observers - {o}).observers == w.observers - {o};
  }

  /** And so is what the constructor promises for the new observer. */
  twostate lemma ConstructionIsOperation(new o: IObserver2, subject: ISubject2?, cs: seq<X>,
                                         subjects: set<ISubject2>, observers: set<IObserver2>)
    requires o !in observers && (subject != null ==> subject in subjects)
    requires forall p :: p in observers ==> p.m_Subject == old(p.m_Subject) && p.m_RegisteredList == old(p.m_RegisteredList)
    requires forall s :: s in subjects && s != subject ==> s.m_list == old(s.m_list)
    requires o.m_Subject == subject
    requires o.View() == AfterRegisters(View(OptionOf(subject), {}, if subject == null then [] else old(subject.m_list)), o, cs)
    ensures WorldOf(subjects, observers + {o}) == Apply(old(WorldOf(subjects, observers)), Op.NewObserver(o, OptionOf(subject), cs))
  {
    hide AfterRegister, AfterRegisters;
  }
}
