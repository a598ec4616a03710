/**
 * IObserver2 and ISubject2: an observer remembers the conditions it is registered for, its
 * subject keeps a multimap from conditions to observers, and the two have to agree.
 */
module Observer {
  import opened Basics

  /** The conditions, ordered by std::less. */
  type X = int

  datatype Entry<O> = Entry(key: X, observer: O)

  /** A multimap's entries in the order of their keys; equal keys in the order of insertion. */
  predicate SortedKeys<O>(l: seq<Entry<O>>)
  {
    forall i, j :: 0 <= i < j < |l| ==> l[i].key <= l[j].key
  }

  function LowerBound<O>(l: seq<Entry<O>>, c: X): (k: nat)
    ensures k <= |l|
    ensures forall i :: 0 <= i < k ==> l[i].key < c
    ensures k < |l| ==> c <= l[k].key
  {
    if l == [] || c <= l[0].key then 0 else 1 + LowerBound(l[1..], c)
  }

  function UpperBound<O>(l: seq<Entry<O>>, c: X): (k: nat)
    ensures k <= |l|
    ensures forall i :: 0 <= i < k ==> l[i].key <= c
    ensures k < |l| ==> c < l[k].key
  {
    if l == [] || c < l[0].key then 0 else 1 + UpperBound(l[1..], c)
  }

  function Inserted<O>(l: seq<Entry<O>>, e: Entry<O>): seq<Entry<O>>
  {
    var k := UpperBound(l, e.key);
    l[..k] + [e] + l[k..]
  }

  /** Without the first entry equal to e. */
  function ErasedOne<O(==)>(l: seq<Entry<O>>, e: Entry<O>): seq<Entry<O>>
  {
    if l == [] then [] else if l[0] == e then l[1..] else [l[0]] + ErasedOne(l[1..], e)
  }

  /** Without any entry for o. */
  function Without<O(==)>(l: seq<Entry<O>>, o: O): seq<Entry<O>>
  {
    if l == [] then []
    else if l[0].observer == o then Without(l[1..], o)
    else [l[0]] + Without(l[1..], o)
  }

  lemma {:induction false} WithoutConcat<O>(a: seq<Entry<O>>, b: seq<Entry<O>>, o: O)
    ensures Without(a + b, o) == Without(a, o) + Without(b, o)
  {
    if a == [] {
      assert a + b == b;
    } else {
      var (h, t) := (a[0], a[1..]);
      WithoutConcat(t, b, o);
      assert (a + b)[1..] == t + b && (a + b)[0] == h;
      assert Without(a, o) == if h.observer == o then Without(t, o) else [h] + Without(t, o);
      assert Without(a + b, o) == if h.observer == o then Without(t + b, o) else [h] + Without(t + b, o);
      hide Without;
      assert [h] + (Without(t, o) + Without(b, o)) == ([h] + Without(t, o)) + Without(b, o);
    }
  }

  lemma {:induction false} WithoutAbsent<O>(l: seq<Entry<O>>, o: O)
    requires forall i :: 0 <= i < |l| ==> l[i].observer != o
    ensures Without(l, o) == l
  {
    if l != [] { WithoutAbsent(l[1..], o); }
  }

  lemma {:induction false} WithoutCounts<O>(l: seq<Entry<O>>, o: O, e: Entry<O>)
    ensures multiset(Without(l, o))[e] == if e.observer == o then 0 else multiset(l)[e]
  {
    if l != [] {
      WithoutCounts(l[1..], o, e);
      assert l == [l[0]] + l[1..];
    }
  }

  lemma {:induction false} WithoutSorted<O>(l: seq<Entry<O>>, o: O)
    requires SortedKeys(l)
    ensures SortedKeys(Without(l, o)) && (forall e :: e in Without(l, o) ==> e in l)
  {
    if l != [] {
      var (h, r) := (l[0], Without(l[1..], o));
      WithoutSorted(l[1..], o);
      assert Without(l, o) == if h.observer == o then r else [h] + r;
      hide Without;
      forall j | 0 <= j < |r| ensures h.key <= r[j].key { assert r[j] in l[1..]; }
    }
  }

  lemma InsertedAt<O>(l: seq<Entry<O>>, e: Entry<O>, i: nat)
    requires i <= |l|
    ensures |Inserted(l, e)| == |l| + 1
    ensures var k := UpperBound(l, e.key);
            Inserted(l, e)[i] == if i < k then l[i] else if i == k then e else l[i - 1]
  {
    hide UpperBound;
  }

  /** multimap::insert: behind every entry whose key is not greater, before all the others. */
  lemma InsertedBehind<O>(l: seq<Entry<O>>, e: Entry<O>)
    requires SortedKeys(l)
    ensures exists k :: 0 <= k <= |l| && Inserted(l, e) == l[..k] + [e] + l[k..]
                        && (forall i :: 0 <= i < k ==> l[i].key <= e.key) && (forall i :: k <= i < |l| ==> e.key < l[i].key)
  {
    var k := UpperBound(l, e.key);
    assert Inserted(l, e) == l[..k] + [e] + l[k..];
  }

  lemma InsertedSorted<O>(l: seq<Entry<O>>, e: Entry<O>)
    requires SortedKeys(l)
    ensures SortedKeys(Inserted(l, e))
  {
    var k := UpperBound(l, e.key);
    var l' := Inserted(l, e);
    InsertedAt(l, e, 0);
    hide UpperBound, Inserted;
    forall i, j | 0 <= i < j < |l'| ensures l'[i].key <= l'[j].key {
      InsertedAt(l, e, i);
      InsertedAt(l, e, j);
      if k < j { assert l[k].key <= l[j - 1].key; }
    }
  }

  lemma InsertedCounts<O>(l: seq<Entry<O>>, e: Entry<O>)
    ensures multiset(Inserted(l, e)) == multiset(l) + multiset{e}
  {
    hide UpperBound;
    var k := UpperBound(l, e.key);
    assert l == l[..k] + l[k..];
  }

  /** insert leaves the other observers' entries alone. */
  lemma InsertedOthers<O>(l: seq<Entry<O>>, e: Entry<O>)
    ensures Without(Inserted(l, e), e.observer) == Without(l, e.observer)
  {
    hide UpperBound;
    var k := UpperBound(l, e.key);
    var (a, b) := (l[..k], l[k..]);
    assert l == a + b;
    assert Without([e], e.observer) == [];
    assert Inserted(l, e) == (a + [e]) + b;
    hide Inserted, Without;
    WithoutConcat(a, b, e.observer);
    WithoutConcat(a + [e], b, e.observer);
    WithoutConcat(a, [e], e.observer);
  }

  lemma {:induction false} ErasedOneSorted<O>(l: seq<Entry<O>>, e: Entry<O>)
    requires SortedKeys(l)
    ensures SortedKeys(ErasedOne(l, e)) && (forall x :: x in ErasedOne(l, e) ==> x in l)
  {
    if l != [] && l[0] != e {
      var r := ErasedOne(l[1..], e);
      ErasedOneSorted(l[1..], e);
      forall j | 0 <= j < |r| ensures l[0].key <= r[j].key { assert r[j] in l[1..]; }
    }
  }

  /** Erasing removes one entry if there is one, and leaves the other observers' entries alone. */
  lemma {:induction false} ErasedOneRemoves<O>(l: seq<Entry<O>>, e: Entry<O>)
    ensures multiset(ErasedOne(l, e)) == multiset(l) - multiset{e}
    ensures Without(ErasedOne(l, e), e.observer) == Without(l, e.observer)
  {
    if l != [] {
      var (h, t) := (l[0], l[1..]);
      assert l == [h] + t;
      if h != e {
        ErasedOneRemoves(t, e);
        var r := ErasedOne(t, e);
        assert ErasedOne(l, e) == [h] + r;
        assert ([h] + r)[1..] == r;
        assert multiset([h] + r) == multiset{h} + multiset(r);
      }
    }
  }

  lemma {:induction false} ErasedOneAt<O>(l: seq<Entry<O>>, e: Entry<O>, k: nat)
    requires k <= |l| && e !in l[..k] && (k < |l| ==> l[k] == e)
    ensures ErasedOne(l, e) == if k < |l| then l[..k] + l[k + 1..] else l
  {
    if k > 0 {
      assert l[0] == l[..k][0];
      assert l[1..][..k - 1] == l[..k][1..];
      ErasedOneAt(l[1..], e, k - 1);
    }
  }

  // ---------------------------------------------------------------- what the operations do

  /** An observer's two fields and the entries of its subject, none if it has no subject. */
  datatype View<S, O> = View(subject: Option<S>, registered: set<X>, entries: seq<Entry<O>>)

  function AfterRegister<S, O>(v: View<S, O>, o: O, c: X): View<S, O>
  {
    if v.subject.None? || c in v.registered then v
    else v.(entries := Inserted(v.entries, Entry(c, o)), registered := v.registered + {c})
  }

  function AfterRegisters<S, O>(v: View<S, O>, o: O, cs: seq<X>): View<S, O>
  {
    if cs == [] then v else AfterRegister(AfterRegisters(v, o, cs[..|cs| - 1]), o, cs[|cs| - 1])
  }

  function AfterDeRegister<S, O(==)>(v: View<S, O>, o: O, c: X): View<S, O>
  {
    v.(entries := if v.subject.None? then v.entries else ErasedOne(v.entries, Entry(c, o)), registered := v.registered - {c})
  }

  /** What Deregister, SetSubject and the destructor leave with the old subject. */
  function AfterLeaving<S, O(==)>(v: View<S, O>, o: O): View<S, O>
  {
    v.(entries := if v.subject.None? then v.entries else Without(v.entries, o), registered := {})
  }

  /** The pair (c, o) is in the multimap once if o is registered for c, and otherwise not at all. */
  ghost predicate Fits<S, O>(v: View<S, O>, o: O)
  {
    && SortedKeys(v.entries)
    && forall c :: multiset(v.entries)[Entry(c, o)] == if v.subject.Some? && c in v.registered then 1 else 0
  }

  /** No other observer notices: its entries stay, in their order. */
  ghost predicate OthersKept<S, O>(v: View<S, O>, o: O, v': View<S, O>)
  {
    v'.subject == v.subject && Without(v'.entries, o) == Without(v.entries, o)
  }

  lemma NobodyNew<S, O>(v: View<S, O>, o: O, v': View<S, O>, e: Entry<O>)
    requires OthersKept(v, o, v') && e in v'.entries
    ensures e.observer == o || e in v.entries
  {
    WithoutCounts(v.entries, o, e);
    WithoutCounts(v'.entries, o, e);
    assert e in multiset(v'.entries);
    assert e in v.entries <==> e in multiset(v.entries);
  }

  lemma RegisterFits<S, O>(v: View<S, O>, o: O, c: X)
    requires Fits(v, o)
    ensures Fits(AfterRegister(v, o, c), o) && OthersKept(v, o, AfterRegister(v, o, c))
    ensures v.subject.Some? ==>
              forall d :: multiset(AfterRegister(v, o, c).entries)[Entry(d, o)]
                          == if d == c then 1 else multiset(v.entries)[Entry(d, o)]
  {
    hide SortedKeys, Inserted, Without;
    InsertedSorted(v.entries, Entry(c, o));
    InsertedCounts(v.entries, Entry(c, o));
    InsertedOthers(v.entries, Entry(c, o));
  }

  lemma {:induction false} RegistersFit<S, O>(v: View<S, O>, o: O, cs: seq<X>)
    requires Fits(v, o)
    ensures Fits(AfterRegisters(v, o, cs), o) && OthersKept(v, o, AfterRegisters(v, o, cs))
    ensures AfterRegisters(v, o, cs).registered == if v.subject.None? then v.registered else v.registered + (set c | c in cs)
  {
    hide Fits, Inserted, Without;
    if cs != [] {
      RegistersFit(v, o, cs[..|cs| - 1]);
      RegisterFits(AfterRegisters(v, o, cs[..|cs| - 1]), o, cs[|cs| - 1]);
      assert cs == cs[..|cs| - 1] + [cs[|cs| - 1]];
    }
  }

  lemma DeRegisterFits<S, O>(v: View<S, O>, o: O, c: X)
    requires Fits(v, o)
    ensures Fits(AfterDeRegister(v, o, c), o) && OthersKept(v, o, AfterDeRegister(v, o, c))
    ensures v.subject.Some? ==>
              forall d :: multiset(AfterDeRegister(v, o, c).entries)[Entry(d, o)]
                          == if d == c then 0 else multiset(v.entries)[Entry(d, o)]
  {
    hide SortedKeys, ErasedOne, Without;
    ErasedOneSorted(v.entries, Entry(c, o));
    ErasedOneRemoves(v.entries, Entry(c, o));
  }

  lemma LeavingFits<S, O>(v: View<S, O>, o: O)
    requires Fits(v, o) && (v.subject.None? ==> v.entries == [])
    ensures Fits(AfterLeaving(v, o), o) && OthersKept(v, o, AfterLeaving(v, o))
    ensures forall e :: e in AfterLeaving(v, o).entries ==> e.observer != o
  {
    WithoutSorted(v.entries, o);
    forall c ensures multiset(Without(v.entries, o))[Entry(c, o)] == 0 { WithoutCounts(v.entries, o, Entry(c, o)); }
    WithoutAbsent(Without(v.entries, o), o) by {
      forall e | e in Without(v.entries, o) ensures e.observer != o { WithoutCounts(v.entries, o, e); assert e in multiset(Without(v.entries, o)); }
    }
  }

  // ---------------------------------------------------------------- many observers and subjects

  datatype Obs<S> = Obs(subject: Option<S>, registered: set<X>)

  /** Every living subject with its multimap, every living observer with its fields. */
  datatype World<S, O> = World(lists: map<S, seq<Entry<O>>>, observers: map<O, Obs<S>>)

  datatype Op<S, O> =
    | NewSubject(s: S) | NewObserver(o: O, subject: Option<S>, cs: seq<X>)
    | Register(o: O, c: X) | DeRegister(o: O, c: X) | SetSubject(o: O, subject: Option<S>) | Destroy(o: O)

  ghost predicate Exists<S, O>(w: World<S, O>, s: Option<S>)
  {
    s.Some? ==> s.value in w.lists
  }

  ghost function ViewOf<S, O>(w: World<S, O>, o: O): View<S, O>
    requires o in w.observers && Exists(w, w.observers[o].subject)
  {
    var Obs(subject, registered) := w.observers[o];
    View(subject, registered, if subject.None? then [] else w.lists[subject.value])
  }

  ghost function Put<S, O>(w: World<S, O>, o: O, v: View<S, O>): World<S, O>
  {
    World(if v.subject.None? then w.lists else w.lists[v.subject.value := v.entries],
          w.observers[o := Obs(v.subject, v.registered)])
  }

  /** One operation; it is skipped if an object it names is not alive. Deregister() is SetSubject(o, None). */
  ghost function Apply<S, O>(w: World<S, O>, op: Op<S, O>): World<S, O>
  {
    match op
    case NewSubject(s) => if s in w.lists then w else w.(lists := w.lists[s := []])
    case NewObserver(o, subject, cs) =>
      if o in w.observers || !Exists(w, subject) then w
      else
        var w' := w.(observers := w.observers[o := Obs(subject, {})]);
        Put(w', o, AfterRegisters(ViewOf(w', o), o, cs))
    case Register(o, c) =>
      if o !in w.observers || !Exists(w, w.observers[o].subject) then w else Put(w, o, AfterRegister(ViewOf(w, o), o, c))
    case DeRegister(o, c) =>
      if o !in w.observers || !Exists(w, w.observers[o].subject) then w else Put(w, o, AfterDeRegister(ViewOf(w, o), o, c))
    case SetSubject(o, subject) =>
      if o !in w.observers || !Exists(w, w.observers[o].subject) || !Exists(w, subject) then w
      else
        var w' := Put(w, o, AfterLeaving(ViewOf(w, o), o));
        w'.(observers := w'.observers[o := Obs(subject, {})])
    case Destroy(o) =>
      if o !in w.observers || !Exists(w, w.observers[o].subject) then w
      else
        var w' := Put(w, o, AfterLeaving(ViewOf(w, o), o));
        w'.(observers := w'.observers - {o})
  }

  ghost function ApplyAll<S, O>(w: World<S, O>, ops: seq<Op<S, O>>): World<S, O>
    decreases |ops|
  {
    if ops == [] then w else ApplyAll(Apply(w, ops[0]), ops[1..])
  }

  /** The multimap of s holds (c, o) once if o belongs to s and is registered for c, else not at all. */
  ghost predicate Agreed<S, O>(w: World<S, O>, s: S, o: O)
    requires s in w.lists && o in w.observers
  {
    forall c :: multiset(w.lists[s])[Entry(c, o)] == if w.observers[o].subject == Some(s) && c in w.observers[o].registered then 1 else 0
  }

  ghost predicate Agree<S, O>(w: World<S, O>)
  {
    && (forall o :: o in w.observers ==> Exists(w, w.observers[o].subject))
    && (forall s :: s in w.lists ==> SortedKeys(w.lists[s]))
    && (forall s :: s in w.lists ==> forall e :: e in w.lists[s] ==> e.observer in w.observers)
    && (forall s, o :: s in w.lists && o in w.observers ==> Agreed(w, s, o))
  }

  lemma ViewFits<S, O>(w: World<S, O>, o: O)
    requires Agree(w) && o in w.observers
    ensures Fits(ViewOf(w, o), o)
  {
    var Obs(subject, registered) := w.observers[o];
    if subject.Some? {
      hide SortedKeys;
      assert Agreed(w, subject.value, o);
    }
  }

  lemma PutKeeps<S, O>(w: World<S, O>, o: O, v: View<S, O>)
    requires Agree(w) && o in w.observers && Fits(v, o) && OthersKept(ViewOf(w, o), o, v)
    ensures Agree(Put(w, o, v))
  {
    hide SortedKeys, Without;
    forall e | e in v.entries ensures e.observer in w.observers { NobodyNew(ViewOf(w, o), o, v, e); }
    var w' := Put(w, o, v);
    forall s, p | s in w'.lists && p in w'.observers ensures Agreed(w', s, p) {
      assert Agreed(w, s, p);
      if v.subject == Some(s) && p != o {
        forall c ensures multiset(w'.lists[s])[Entry(c, p)] == multiset(w.lists[s])[Entry(c, p)] {
          WithoutCounts(w.lists[s], o, Entry(c, p));
          WithoutCounts(w'.lists[s], o, Entry(c, p));
        }
      }
    }
  }

  /** An observer registered for nothing has no entry anywhere, so it may change subject or go. */
  lemma UnregisteredAbsent<S, O>(w: World<S, O>, s: S, o: O, e: Entry<O>)
    requires Agree(w) && s in w.lists && o in w.observers && w.observers[o].registered == {}
    requires e in w.lists[s]
    ensures e.observer != o
  {
    assert Agreed(w, s, o);
    assert multiset(w.lists[s])[e] > 0;
  }

  lemma AdmitKeeps<S, O>(w: World<S, O>, o: O, subject: Option<S>)
    requires Agree(w) && o !in w.observers && Exists(w, subject)
    ensures Agree(w.(observers := w.observers[o := Obs(subject, {})]))
  {
    hide SortedKeys;
    var w' := w.(observers := w.observers[o := Obs(subject, {})]);
    forall s, p | s in w'.lists && p in w'.observers ensures Agreed(w', s, p) {
      if p != o {
        assert Agreed(w, s, p);
      } else {
        forall c ensures multiset(w.lists[s])[Entry(c, o)] == 0 {
          assert Entry(c, o) in multiset(w.lists[s]) <==> Entry(c, o) in w.lists[s];
        }
      }
    }
  }

  lemma LeavingKeeps<S, O>(w: World<S, O>, o: O)
    requires Agree(w) && o in w.observers
    ensures Agree(Put(w, o, AfterLeaving(ViewOf(w, o), o)))
  {
    hide SortedKeys, Without, Agreed;
    ViewFits(w, o);
    LeavingFits(ViewOf(w, o), o);
    PutKeeps(w, o, AfterLeaving(ViewOf(w, o), o));
  }

  lemma MoveKeeps<S, O>(w: World<S, O>, o: O, subject: Option<S>)
    requires Agree(w) && o in w.observers && w.observers[o].registered == {} && Exists(w, subject)
    ensures Agree(w.(observers := w.observers[o := Obs(subject, {})]))
  {
    hide SortedKeys;
    var w' := w.(observers := w.observers[o := Obs(subject, {})]);
    forall s, p | s in w'.lists && p in w'.observers ensures Agreed(w', s, p) { assert Agreed(w, s, p); }
  }

  lemma RemoveKeeps<S, O>(w: World<S, O>, o: O)
    requires Agree(w) && o in w.observers && w.observers[o].registered == {}
    ensures Agree(w.(observers := w.observers - {o}))
  {
    hide SortedKeys;
    var w' := w.(observers := w.observers - {o});
    forall s, p | s in w'.lists && p in w'.observers ensures Agreed(w', s, p) { assert Agreed(w, s, p); }
    forall s, e | s in w'.lists && e in w'.lists[s] ensures e.observer in w'.observers { UnregisteredAbsent(w, s, o, e); }
  }

  lemma ApplyKeepsAgree<S, O>(w: World<S, O>, op: Op<S, O>)
    requires Agree(w)
    ensures Agree(Apply(w, op))
  {
    hide SortedKeys, Without, Agreed, Fits, OthersKept, Inserted, ErasedOne;
    if Apply(w, op) != w {
      match op
      case NewSubject(s) => SubjectKeeps(w, s);
      case NewObserver(o, subject, cs) =>
        AdmitKeeps(w, o, subject);
        var w' := w.(observers := w.observers[o := Obs(subject, {})]);
        ViewFits(w', o);
        RegistersFit(ViewOf(w', o), o, cs);
        PutKeeps(w', o, AfterRegisters(ViewOf(w', o), o, cs));
      case Register(o, c) =>
        ViewFits(w, o);
        RegisterFits(ViewOf(w, o), o, c);
        PutKeeps(w, o, AfterRegister(ViewOf(w, o), o, c));
      case DeRegister(o, c) =>
        ViewFits(w, o);
        DeRegisterFits(ViewOf(w, o), o, c);
        PutKeeps(w, o, AfterDeRegister(ViewOf(w, o), o, c));
      case SetSubject(o, subject) =>
        LeavingKeeps(w, o);
        MoveKeeps(Put(w, o, AfterLeaving(ViewOf(w, o), o)), o, subject);
      case Destroy(o) =>
        LeavingKeeps(w, o);
        RemoveKeeps(Put(w, o, AfterLeaving(ViewOf(w, o), o)), o);
    }
  }

  lemma SubjectKeeps<S, O>(w: World<S, O>, s: S)
    requires Agree(w) && s !in w.lists
    ensures Agree(w.(lists := w.lists[s := []]))
  {
    var w' := w.(lists := w.lists[s := []]);
    forall t, p | t in w'.lists && p in w'.observers ensures Agreed(w', t, p) {
      if t != s { assert Agreed(w, t, p); }
    }
  }

  lemma {:induction false} RunsAgree<S, O>(w: World<S, O>, ops: seq<Op<S, O>>)
    requires Agree(w)
    ensures Agree(ApplyAll(w, ops))
    decreases |ops|
  {
    hide Agree, Apply;
    if ops != [] {
      ApplyKeepsAgree(w, ops[0]);
      RunsAgree(Apply(w, ops[0]), ops[1..]);
    }
  }

  /**
   * After any sequence of constructions, registrations, deregistrations, changes of subject and
   * destructions, a living subject's multimap holds (c, o) exactly once if o is a living observer
   * of that subject registered for c, and not at all otherwise.
   */
  lemma RegistrationAgreement<S, O>(ops: seq<Op<S, O>>, s: S, c: X, o: O)
    ensures var w := ApplyAll(World(map[], map[]), ops);
            s in w.lists ==>
              multiset(w.lists[s])[Entry(c, o)]
              == if o in w.observers && w.observers[o].subject == Some(s) && c in w.observers[o].registered then 1 else 0
  {
    hide SortedKeys;
    RunsAgree(World(map[], map[]), ops);
    var w := ApplyAll(World(map[], map[]), ops);
    if s in w.lists {
      assert Entry(c, o) in multiset(w.lists[s]) <==> Entry(c, o) in w.lists[s];
      if o in w.observers { assert Agreed(w, s, o); }
    }
  }
}
