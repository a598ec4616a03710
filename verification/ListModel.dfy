/**
 * What the list of LinkedList.h does to the sequence of its nodes, and what every change does to
 * an iterator, which is at a node or (None) nowhere.
 */
module ListModel {
  import opened Basics

  datatype Event = AddNodeFront | DeleteNodeFront | AddNodeBack | DeleteNodeBack | DeleteNode | ClearedAll

  /** A registered iterator is nowhere exactly when the list is empty, else at a node of the list. */
  predicate CursorOk<N(==)>(items: seq<N>, c: Option<N>)
  {
    match c
    case None => items == []
    case Some(n) => n in items
  }

  function FirstOf<N>(items: seq<N>): Option<N>
  {
    if items == [] then None else Some(items[0])
  }

  function LastOf<N>(items: seq<N>): Option<N>
  {
    if items == [] then None else Some(items[|items| - 1])
  }

  // Where an iterator ends up after each change of the list.

  function AfterInsert<N>(n: N, c: Option<N>): Option<N>
  {
    if c == None then Some(n) else c
  }

  function AfterRemoveFront<N(==)>(items: seq<N>, c: Option<N>): Option<N>
    requires items != []
  {
    if c == Some(items[0]) then (if |items| > 1 then Some(items[1]) else None) else c
  }

  function AfterRemoveBack<N(==)>(items: seq<N>, c: Option<N>): Option<N>
    requires items != []
  {
    if c == LastOf(items) then (if |items| > 1 then Some(items[|items| - 2]) else None) else c
  }

  function AfterDelete<N(==)>(items: seq<N>, k: nat, c: Option<N>): Option<N>
    requires k < |items|
  {
    if c == Some(items[k]) then (if k > 0 then Some(items[k - 1]) else if |items| > 1 then Some(items[1]) else None) else c
  }

  /** Position of an item; the length when there is none. */
  function IndexOf<N(==)>(items: seq<N>, n: N): (k: nat)
    ensures k <= |items| && (k < |items| ==> items[k] == n) && (k == |items| <==> n !in items)
  {
    if items == [] || items[0] == n then 0 else 1 + IndexOf(items[1..], n)
  }

  /** operator++: one on, but not past the last node. */
  function OneOn<N(==)>(items: seq<N>, c: Option<N>): Option<N>
  {
    if c.Some? && IndexOf(items, c.value) + 1 < |items| then Some(items[IndexOf(items, c.value) + 1]) else c
  }

  /** operator--: one back, but not before the first node. */
  function OneBack<N(==)>(items: seq<N>, c: Option<N>): Option<N>
  {
    if c.Some? && 0 < IndexOf(items, c.value) < |items| then Some(items[IndexOf(items, c.value) - 1]) else c
  }

  predicate Distinct<N(==)>(items: seq<N>)
  {
    forall i, j :: 0 <= i < j < |items| ==> items[i] != items[j]
  }

  lemma StepFrom<N>(items: seq<N>, k: nat)
    requires Distinct(items) && k < |items|
    ensures IndexOf(items, items[k]) == k
  {
  }

  /** One on is the next position, one back the one before; both stop at the ends. */
  lemma StepsAt<N>(items: seq<N>, k: nat)
    requires Distinct(items) && k < |items|
    ensures OneOn(items, Some(items[k])) == Some(items[if k + 1 < |items| then k + 1 else k])
    ensures OneBack(items, Some(items[k])) == Some(items[if k > 0 then k - 1 else 0])
  {
    StepFrom(items, k);
  }

  function Forwards<N(==)>(items: seq<N>, c: Option<N>, n: nat): Option<N>
  {
    if n == 0 then c else OneOn(items, Forwards(items, c, n - 1))
  }

  function Backwards<N(==)>(items: seq<N>, c: Option<N>, n: nat): Option<N>
  {
    if n == 0 then c else OneBack(items, Backwards(items, c, n - 1))
  }

  /** From the front, ++ comes to every node in turn and none is skipped; so does -- from the back. */
  lemma {:induction false} WalkVisitsAll<N>(items: seq<N>, k: nat)
    requires Distinct(items) && k < |items|
    ensures Forwards(items, FirstOf(items), k) == Some(items[k])
    ensures Backwards(items, LastOf(items), k) == Some(items[|items| - 1 - k])
  {
    hide OneOn, OneBack, Distinct;
    if k > 0 {
      WalkVisitsAll(items, k - 1);
      StepsAt(items, k - 1);
      StepsAt(items, |items| - k);
    }
  }

  /** ++ and -- undo each other, except at the end where the first of them did not move. */
  lemma ForthAndBack<N>(items: seq<N>, k: nat)
    requires Distinct(items) && k < |items|
    ensures OneBack(items, OneOn(items, Some(items[k]))) == Some(items[k]) <==> k + 1 < |items| || |items| == 1
    ensures OneOn(items, OneBack(items, Some(items[k]))) == Some(items[k]) <==> k > 0 || |items| == 1
  {
    StepsAt(items, k);
    StepsAt(items, if k + 1 < |items| then k + 1 else k);
    StepsAt(items, if k > 0 then k - 1 else 0);
  }

  // Each change keeps an iterator at a node of the list.

  lemma InsertKeepsCursor<N>(items: seq<N>, n: N, c: Option<N>)
    requires CursorOk(items, c)
    ensures CursorOk(items + [n], AfterInsert(n, c)) && CursorOk([n] + items, AfterInsert(n, c))
  {
  }

  lemma RemoveFrontKeepsCursor<N>(items: seq<N>, c: Option<N>)
    requires items != [] && CursorOk(items, c)
    ensures CursorOk(items[1..], AfterRemoveFront(items, c))
  {
    if |items| > 1 { assert items[1..][0] == items[1]; }
    if c.Some? && c.value != items[0] {
      var i :| 0 <= i < |items| && items[i] == c.value;
      assert items[1..][i - 1] == c.value;
    }
  }

  lemma RemoveBackKeepsCursor<N>(items: seq<N>, c: Option<N>)
    requires items != [] && CursorOk(items, c)
    ensures CursorOk(items[..|items| - 1], AfterRemoveBack(items, c))
  {
    var k := |items| - 1;
    if k > 0 { assert items[..k][k - 1] == items[k - 1]; }
    if c.Some? && c.value != items[k] {
      var i :| 0 <= i < |items| && items[i] == c.value;
      assert items[..k][i] == c.value;
    }
  }

  lemma DeleteKeepsCursor<N>(items: seq<N>, k: nat, c: Option<N>)
    requires k < |items| && CursorOk(items, c)
    ensures CursorOk(items[..k] + items[k + 1..], AfterDelete(items, k, c))
  {
    var rest := items[..k] + items[k + 1..];
    if k > 0 { assert rest[k - 1] == items[k - 1]; }
    if k == 0 && |items| > 1 { assert rest[0] == items[1]; }
    if c.Some? && c.value != items[k] {
      var i :| 0 <= i < |items| && items[i] == c.value;
      assert rest[if i < k then i else i - 1] == c.value;
    }
  }

  // ---------------------------------------------------------------- whole runs

  /** A list with its registered iterators; `size` is mElements, `deletes` counts Delete since Clear. */
  datatype ListState<N> = ListState(items: seq<N>, cursors: seq<Option<N>>, size: int, deletes: nat)

  datatype Op<N> =
    | InsertBack(n: N) | InsertFront(n: N) | RemoveFront | RemoveBack | DeleteAt(k: nat) | Clear
    | Attach | Detach(i: nat) | Forward(i: nat) | Backward(i: nat) | ToFront(i: nat) | ToBack(i: nat) | DeleteThis(i: nat)

  function MapCursors<N>(cs: seq<Option<N>>, f: Option<N> -> Option<N>): (r: seq<Option<N>>)
    ensures |r| == |cs| && forall i :: 0 <= i < |cs| ==> r[i] == f(cs[i])
  {
    seq(|cs|, i requires 0 <= i < |cs| => f(cs[i]))
  }

  function RemoveAt<N(==)>(s: ListState<N>, k: nat): ListState<N>
    requires k < |s.items|
  {
    s.(items := s.items[..k] + s.items[k + 1..], deletes := s.deletes + 1,
       cursors := MapCursors(s.cursors, c => AfterDelete(s.items, k, c)))
  }

  /** One operation; new nodes are new, operations on what is not there do nothing. */
  function Apply<N(==)>(s: ListState<N>, op: Op<N>): ListState<N>
  {
    match op
    case InsertBack(n) =>
      if n in s.items then s
      else s.(items := s.items + [n], size := s.size + 1, cursors := MapCursors(s.cursors, c => AfterInsert(n, c)))
    case InsertFront(n) =>
      if n in s.items then s
      else s.(items := [n] + s.items, size := s.size + 1, cursors := MapCursors(s.cursors, c => AfterInsert(n, c)))
    case RemoveFront =>
      if s.items == [] then s
      else s.(items := s.items[1..], size := s.size - 1, cursors := MapCursors(s.cursors, c => AfterRemoveFront(s.items, c)))
    case RemoveBack =>
      if s.items == [] then s
      else s.(items := s.items[..|s.items| - 1], size := s.size - 1,
              cursors := MapCursors(s.cursors, c => AfterRemoveBack(s.items, c)))
    case DeleteAt(k) => if k < |s.items| then RemoveAt(s, k) else s
    case Clear => ListState([], MapCursors(s.cursors, c => None), 0, 0)
    case Attach => s.(cursors := s.cursors + [FirstOf(s.items)])
    case Detach(i) => if i < |s.cursors| then s.(cursors := s.cursors[..i] + s.cursors[i + 1..]) else s
    case Forward(i) => if i < |s.cursors| then s.(cursors := s.cursors[i := OneOn(s.items, s.cursors[i])]) else s
    case Backward(i) => if i < |s.cursors| then s.(cursors := s.cursors[i := OneBack(s.items, s.cursors[i])]) else s
    case ToFront(i) => if i < |s.cursors| then s.(cursors := s.cursors[i := FirstOf(s.items)]) else s
    case ToBack(i) => if i < |s.cursors| then s.(cursors := s.cursors[i := LastOf(s.items)]) else s
    case DeleteThis(i) =>
      if i < |s.cursors| && s.cursors[i].Some? && IndexOf(s.items, s.cursors[i].value) < |s.items| then
        RemoveAt(s, IndexOf(s.items, s.cursors[i].value))
      else s
  }

  function ApplyAll<N(==)>(s: ListState<N>, ops: seq<Op<N>>): ListState<N>
    decreases |ops|
  {
    if ops == [] then s else ApplyAll(Apply(s, ops[0]), ops[1..])
  }

  ghost predicate Robust<N>(s: ListState<N>)
  {
    && Distinct(s.items)
    && s.size == |s.items| + s.deletes
    && forall i :: 0 <= i < |s.cursors| ==> CursorOk(s.items, s.cursors[i])
  }

  lemma RemoveAtKeepsRobust<N>(s: ListState<N>, k: nat)
    requires Robust(s) && k < |s.items|
    ensures Robust(RemoveAt(s, k))
  {
    forall i | 0 <= i < |s.cursors| ensures CursorOk(RemoveAt(s, k).items, RemoveAt(s, k).cursors[i]) {
      DeleteKeepsCursor(s.items, k, s.cursors[i]);
    }
  }

  lemma ApplyKeepsRobust<N>(s: ListState<N>, op: Op<N>)
    requires Robust(s)
    ensures Robust(Apply(s, op))
  {
    var s' := Apply(s, op);
    match op
    case DeleteAt(k) => if k < |s.items| { RemoveAtKeepsRobust(s, k); }
    case DeleteThis(i) =>
      if i < |s.cursors| && s.cursors[i].Some? && IndexOf(s.items, s.cursors[i].value) < |s.items| {
        RemoveAtKeepsRobust(s, IndexOf(s.items, s.cursors[i].value));
      }
    case InsertBack(n) =>
      forall i | 0 <= i < |s.cursors| { InsertKeepsCursor(s.items, n, s.cursors[i]); }
    case InsertFront(n) =>
      forall i | 0 <= i < |s.cursors| { InsertKeepsCursor(s.items, n, s.cursors[i]); }
    case RemoveFront =>
      if s.items != [] { forall i | 0 <= i < |s.cursors| { RemoveFrontKeepsCursor(s.items, s.cursors[i]); } }
    case RemoveBack =>
      if s.items != [] { forall i | 0 <= i < |s.cursors| { RemoveBackKeepsCursor(s.items, s.cursors[i]); } }
    case _ =>
  }

  lemma {:induction false} ApplyAllKeepsRobust<N>(s: ListState<N>, ops: seq<Op<N>>)
    requires Robust(s)
    ensures Robust(ApplyAll(s, ops))
    decreases |ops|
  {
    if ops != [] {
      ApplyKeepsRobust(s, ops[0]);
      ApplyAllKeepsRobust(Apply(s, ops[0]), ops[1..]);
    }
  }

  function DeletesMade<N(==)>(s: ListState<N>, ops: seq<Op<N>>): nat
    decreases |ops|
  {
    if ops == [] then 0
    else (if Apply(s, ops[0]).deletes > s.deletes then 1 else 0) + DeletesMade(Apply(s, ops[0]), ops[1..])
  }

  lemma {:induction false} DeletesCounted<N>(s: ListState<N>, ops: seq<Op<N>>)
    requires forall i :: 0 <= i < |ops| ==> !ops[i].Clear?
    ensures ApplyAll(s, ops).deletes == s.deletes + DeletesMade(s, ops)
    decreases |ops|
  {
    if ops != [] {
      assert !ops[0].Clear?;
      DeletesCounted(Apply(s, ops[0]), ops[1..]);
    }
  }

  /**
   * Robust iterators: after any sequence of operations on a new list every registered iterator is
   * nowhere exactly when the list is empty and otherwise at a node of the list. Size() is too
   * large by the number of nodes taken out with Delete since the last Clear: here the run is
   * `before`, then perhaps a Clear, then `after` without one.
   */
  lemma RobustIterators<N>(before: seq<Op<N>>, cleared: bool, after: seq<Op<N>>)
    requires forall i :: 0 <= i < |after| ==> !after[i].Clear?
    requires !cleared ==> before == []
    ensures var s0 := ApplyAll(ListState([], [], 0, 0), before);
            var s1 := if cleared then Apply(s0, Clear) else s0;
            var s := ApplyAll(s1, after);
            && (forall i :: 0 <= i < |s.cursors| ==> (s.cursors[i] == None <==> s.items == [])
                                                     && (s.cursors[i].Some? ==> s.cursors[i].value in s.items))
            && s.size == |s.items| + DeletesMade(s1, after)
  {
    var s0 := ApplyAll(ListState([], [], 0, 0), before);
    ApplyAllKeepsRobust(ListState([], [], 0, 0), before);
    var s1 := if cleared then Apply(s0, Clear) else s0;
    ApplyKeepsRobust(s0, Clear);
    ApplyAllKeepsRobust(s1, after);
    DeletesCounted(s1, after);
    var s := ApplyAll(s1, after);
    forall i | 0 <= i < |s.cursors| ensures s.cursors[i] == None <==> s.items == [] {
      assert CursorOk(s.items, s.cursors[i]);
    }
  }

  /**
   * An iterator whose own node is taken out goes to the node that is now first (removal at the
   * front) or last (at the back), after Delete to the node before it, or if there is none to the
   * node that is now first; and nowhere when the list is now empty.
   */
  lemma OwnNodeGone<N>(s: ListState<N>, op: Op<N>, i: nat)
    requires Robust(s) && i < |s.cursors| && s.cursors[i].Some?
    requires op.RemoveFront? || op.RemoveBack? || op.DeleteAt? || op.DeleteThis?
    requires s.cursors[i].value !in Apply(s, op).items
    ensures var s' := Apply(s, op);
            && |s'.cursors| == |s.cursors|
            && s'.cursors[i] == if op.RemoveFront? then FirstOf(s'.items)
                                else if op.RemoveBack? then LastOf(s'.items)
                                else
                                  var k := IndexOf(s.items, s.cursors[i].value);
                                  if 0 < k <= |s'.items| then Some(s'.items[k - 1]) else FirstOf(s'.items)
  {
    var k := IndexOf(s.items, s.cursors[i].value);
    StaysIn(s.items, k, if op.DeleteAt? then op.k else if op.DeleteThis? then Deleted(s, op.i) else 0);
  }

  /** Where DeleteThis takes a node out; the length when it does nothing. */
  function Deleted<N(==)>(s: ListState<N>, i: nat): nat
  {
    if i < |s.cursors| && s.cursors[i].Some? then IndexOf(s.items, s.cursors[i].value) else |s.items|
  }

  /** A node is still there when another one was taken out. */
  lemma StaysIn<N>(items: seq<N>, k: nat, m: nat)
    requires k < |items|
    ensures k != m && m < |items| ==> items[k] in items[..m] + items[m + 1..]
    ensures (k > 0 ==> items[k] in items[1..]) && (k + 1 < |items| ==> items[k] in items[..|items| - 1])
  {
    assert k > 0 ==> items[1..][k - 1] == items[k];
    assert k + 1 < |items| ==> items[..|items| - 1][k] == items[k];
    if k != m && m < |items| { assert (items[..m] + items[m + 1..])[if k < m then k else k - 1] == items[k]; }
  }

  /** A change of the list moves an iterator only if the iterator's own node goes. */
  lemma IteratorsStay<N>(s: ListState<N>, op: Op<N>, i: nat)
    requires Robust(s) && i < |s.cursors| && s.cursors[i].Some?
    requires op.InsertBack? || op.InsertFront? || op.RemoveFront? || op.RemoveBack? || op.DeleteAt? || op.DeleteThis?
    requires s.cursors[i].value in Apply(s, op).items
    ensures Apply(s, op).cursors[i] == s.cursors[i]
  {
    var s' := Apply(s, op);
    var j :| 0 <= j < |s'.items| && s'.items[j] == s.cursors[i].value;
  }
}
