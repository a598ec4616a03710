/**
 * The doubly linked list of LinkedList.h and its iterators. An iterator registers with its list
 * and is told of every change, while the links are only half updated, so that it never points to
 * a node that is gone. Objects of the list, of its nodes and of its iterators live in the heap.
 */
module LinkedList {
  import opened Basics
  import opened ListModel

  class LListNode<T> {
    var mData: T
    var mNext: LListNode?<T>
    var mPrevious: LListNode?<T>

    constructor (data: T)
      ensures mData == data && mNext == null && mPrevious == null
    {
      mData := data;
      mNext := null;
      mPrevious := null;
    }
  }

  function Opt<T>(n: LListNode?<T>): Option<LListNode<T>>
  {
    if n == null then None else Some(n)
  }

  /** What LinkedListItr::Notify makes of the iterator; the node's links and the list's ends are
      those the iterator finds while it is called. */
  function Repaired<T>(ev: Event, node: LListNode?<T>, next: LListNode?<T>, previous: LListNode?<T>,
                       head: LListNode?<T>, tail: LListNode?<T>, itr: LListNode?<T>): LListNode?<T>
  {
    match ev
    case AddNodeFront => if itr == null then head else itr
    case AddNodeBack => if itr == null then tail else itr
    case DeleteNodeFront => if itr == node then next else itr
    case DeleteNodeBack => if itr == node then previous else itr
    case DeleteNode => if itr == node then (if previous != null then previous else next) else itr
    case ClearedAll => null
  }

  lemma RepairAtDelete<T>(items: seq<LListNode<T>>, k: nat, next: LListNode?<T>, previous: LListNode?<T>,
                          head: LListNode?<T>, tail: LListNode?<T>, itr: LListNode?<T>)
    requires k < |items| && CursorOk(items, Opt(itr))
    requires Opt(next) == if k + 1 < |items| then Some(items[k + 1]) else None
    requires Opt(previous) == if k > 0 then Some(items[k - 1]) else None
    ensures var itr' := Repaired(DeleteNode, items[k], next, previous, head, tail, itr);
            Opt(itr') == AfterDelete(items, k, Opt(itr)) && CursorOk(items[..k] + items[k + 1..], Opt(itr'))
  {
    DeleteKeepsCursor(items, k, Opt(itr));
  }

  class LinkedList<T> {
    var mHead: LListNode?<T>
    var mTail: LListNode?<T>
    var mElements: int
    var m_ObsList: set<LinkedListItr<T>>
    ghost var nodes: seq<LListNode<T>>  // the nodes that are in the list, first to last
    ghost var deletes: nat              // calls of Delete since the last Clear

    /** The nodes' own links run through `nodes`. */
    ghost predicate Chained()
      reads this`nodes, nodes
    {
      && Distinct(nodes)
      && (nodes != [] ==> nodes[0].mPrevious == null && nodes[|nodes| - 1].mNext == null)
      && (forall i, j :: 0 <= i < j < |nodes| && j == i + 1 ==> nodes[i].mNext == nodes[j] && nodes[j].mPrevious == nodes[i])
    }

    ghost predicate Linked()
      reads this`nodes, this`mHead, this`mTail, nodes
    {
      && Chained()
      && mHead == (if nodes == [] then null else nodes[0])
      && mTail == (if nodes == [] then null else nodes[|nodes| - 1])
    }

    /** Between the two halves of Delete: the ends have left nodes[k], its neighbours have not. */
    ghost predicate HalfDeleted(k: nat)
      reads this`nodes, this`mHead, this`mTail, nodes
      requires k < |nodes|
    {
      && Chained()
      && mHead == (if 0 < k then nodes[0] else if |nodes| > 1 then nodes[1] else null)
      && mTail == (if k + 1 < |nodes| then nodes[|nodes| - 1] else if |nodes| > 1 then nodes[k - 1] else null)
    }

    ghost predicate Observed()
      reads this`nodes, this`m_ObsList, m_ObsList
    {
      forall o :: o in m_ObsList ==> o.mList == this && CursorOk(nodes, Opt(o.mItr))
    }

    ghost predicate Valid()
      reads this, nodes, m_ObsList
    {
      Linked() && Observed() && mElements == |nodes| + deletes
    }

    constructor ()
      ensures Valid() && nodes == [] && m_ObsList == {} && deletes == 0
    {
      mHead, mTail, mElements := null, null, 0;
      m_ObsList, nodes, deletes := {}, [], 0;
    }

    method LinkAtBack(newNode: LListNode<T>)
      requires Linked() && newNode !in nodes && newNode.mNext == null && newNode.mPrevious == null
      modifies this`mHead, this`mTail, this`nodes, newNode`mPrevious, nodes`mNext
      ensures Linked() && nodes == old(nodes) + [newNode] && mTail == newNode
    {
      if mTail == null {
        mTail := newNode;
        mHead := mTail;
      } else {
        mTail.mNext := newNode;
        newNode.mPrevious := mTail;
        mTail := mTail.mNext;
      }
      nodes := nodes + [newNode];
      assert |nodes| > 1 ==> nodes[|nodes| - 2].mNext == newNode && newNode.mPrevious == nodes[|nodes| - 2];
    }

    method InsertAtBack(data: T)
      requires Valid()
      modifies this, nodes`mNext, m_ObsList`mItr
      ensures Valid() && m_ObsList == old(m_ObsList) && deletes == old(deletes)
      ensures |nodes| == |old(nodes)| + 1 && nodes[..|old(nodes)|] == old(nodes)
      ensures fresh(nodes[|old(nodes)|]) && nodes[|old(nodes)|].mData == data
      ensures forall o :: o in m_ObsList ==> Opt(o.mItr) == AfterInsert(nodes[|old(nodes)|], old(Opt(o.mItr)))
    {
      hide Linked, CursorOk;
      var newNode := new LListNode(data);
      LinkAtBack(newNode);
      assert mTail == newNode;
      CallListener(AddNodeBack, mTail);
      mElements := mElements + 1;
      assert Observed() by {
        forall o | o in m_ObsList ensures CursorOk(nodes, Opt(o.mItr)) {
          InsertKeepsCursor(old(nodes), newNode, old(Opt(o.mItr)));
        }
      }
    }

    method LinkAtFront(newNode: LListNode<T>)
      requires Linked() && newNode !in nodes && newNode.mNext == null && newNode.mPrevious == null
      modifies this`mHead, this`mTail, this`nodes, newNode`mNext, nodes`mPrevious
      ensures Linked() && nodes == [newNode] + old(nodes) && mHead == newNode
    {
      if mHead == null {
        mHead := newNode;
        mTail := mHead;
      } else {
        mHead.mPrevious := newNode;
        newNode.mNext := mHead;
        mHead := mHead.mPrevious;
      }
      nodes := [newNode] + nodes;
      assert |nodes| > 1 ==> nodes[1].mPrevious == newNode && newNode.mNext == nodes[1];
    }

    method InsertAtFront(data: T)
      requires Valid()
      modifies this, nodes`mPrevious, m_ObsList`mItr
      ensures Valid() && m_ObsList == old(m_ObsList) && deletes == old(deletes)
      ensures |nodes| == |old(nodes)| + 1 && nodes[1..] == old(nodes)
      ensures fresh(nodes[0]) && nodes[0].mData == data
      ensures forall o :: o in m_ObsList ==> Opt(o.mItr) == AfterInsert(nodes[0], old(Opt(o.mItr)))
    {
      hide Linked, CursorOk;
      var newNode := new LListNode(data);
      LinkAtFront(newNode);
      CallListener(AddNodeFront, mHead);
      mElements := mElements + 1;
      assert Observed() by {
        forall o | o in m_ObsList ensures CursorOk(nodes, Opt(o.mItr)) {
          InsertKeepsCursor(old(nodes), newNode, old(Opt(o.mItr)));
        }
      }
    }

    method UnlinkFront() returns (secHead: LListNode<T>)
      requires Linked() && nodes != []
      modifies this`mHead, this`mTail, this`nodes, nodes`mPrevious
      ensures Linked() && secHead == old(nodes)[0] && nodes == old(nodes)[1..]
      ensures Opt(secHead.mNext) == FirstOf(nodes)
    {
      secHead := mHead;
      assert |nodes| > 1 ==> nodes[0].mNext == nodes[1];
      mHead := mHead.mNext;
      if mHead != null {
        mHead.mPrevious := null;
      }
      if mTail == secHead {
        mTail := null;
      }
      nodes := nodes[1..];
    }

    method RemoveFromFront() returns (output: Option<T>)
      requires Valid()
      modifies this, nodes`mPrevious, m_ObsList`mItr
      ensures Valid() && m_ObsList == old(m_ObsList) && deletes == old(deletes)
      ensures output == if old(nodes) == [] then None else Some(old(nodes[0].mData))
      ensures nodes == if old(nodes) == [] then [] else old(nodes)[1..]
      ensures forall o :: o in m_ObsList ==>
                Opt(o.mItr) == if old(nodes) == [] then None else AfterRemoveFront(old(nodes), old(Opt(o.mItr)))
    {
      if mHead == null {
        return None;
      }
      output := Some(mHead.mData);
      ghost var was := nodes;
      var secHead := UnlinkFront();
      assert Opt(secHead.mNext) == if |was| > 1 then Some(was[1]) else None;
      CallListener(DeleteNodeFront, secHead);
      mElements := mElements - 1;
      forall o | o in m_ObsList
        ensures Opt(o.mItr) == AfterRemoveFront(was, old(Opt(o.mItr))) && CursorOk(nodes, Opt(o.mItr))
      {
        RemoveFrontKeepsCursor(was, old(Opt(o.mItr)));
      }
    }

    method UnlinkBack() returns (secHead: LListNode<T>)
      requires Linked() && nodes != []
      modifies this`mHead, this`mTail, this`nodes, nodes`mNext
      ensures Linked() && secHead == old(nodes)[|old(nodes)| - 1] && nodes == old(nodes)[..|old(nodes)| - 1]
      ensures Opt(secHead.mPrevious) == LastOf(nodes)
    {
      secHead := mTail;
      assert |nodes| > 1 ==> nodes[|nodes| - 1].mPrevious == nodes[|nodes| - 2];
      mTail := mTail.mPrevious;
      if mTail != null {
        mTail.mNext := null;
      }
      if mHead == secHead {
        mHead := null;
      }
      nodes := nodes[..|nodes| - 1];
    }

    method RemoveFromBack() returns (output: Option<T>)
      requires Valid()
      modifies this, nodes`mNext, m_ObsList`mItr
      ensures Valid() && m_ObsList == old(m_ObsList) && deletes == old(deletes)
      ensures output == if old(nodes) == [] then None else Some(old(nodes[|nodes| - 1].mData))
      ensures nodes == if old(nodes) == [] then [] else old(nodes)[..|old(nodes)| - 1]
      ensures forall o :: o in m_ObsList ==>
                Opt(o.mItr) == if old(nodes) == [] then None else AfterRemoveBack(old(nodes), old(Opt(o.mItr)))
    {
      if mTail == null {
        return None;
      }
      output := Some(mTail.mData);
      ghost var was := nodes;
      var secHead := UnlinkBack();
      assert Opt(secHead.mPrevious) == if |was| > 1 then Some(was[|was| - 2]) else None;
      CallListener(DeleteNodeBack, secHead);
      mElements := mElements - 1;
      forall o | o in m_ObsList
        ensures Opt(o.mItr) == AfterRemoveBack(was, old(Opt(o.mItr))) && CursorOk(nodes, Opt(o.mItr))
      {
        RemoveBackKeepsCursor(was, old(Opt(o.mItr)));
      }
    }

    method Front() returns (output: Option<T>)
      requires Valid()
      ensures output == if nodes == [] then None else Some(nodes[0].mData)
    {
      return if mHead == null then None else Some(mHead.mData);
    }

    method Back() returns (output: Option<T>)
      requires Valid()
      ensures output == if nodes == [] then None else Some(nodes[|nodes| - 1].mData)
    {
      return if mTail == null then None else Some(mTail.mData);
    }

    method Size() returns (n: int)
      requires Valid()
      ensures n == |nodes| + deletes
    {
      return mElements;
    }

    method LeaveEnds(node: LListNode<T>, ghost k: nat)
      requires Linked() && k < |nodes| && nodes[k] == node
      modifies this`mHead, this`mTail
      ensures HalfDeleted(k)
      ensures Opt(node.mNext) == if k + 1 < |nodes| then Some(nodes[k + 1]) else None
      ensures Opt(node.mPrevious) == if k > 0 then Some(nodes[k - 1]) else None
    {
      assert k + 1 < |nodes| ==> nodes[k].mNext == nodes[k + 1];
      assert k > 0 ==> nodes[k].mPrevious == nodes[k - 1];
      if node == mHead {
        mHead := mHead.mNext;
      }
      if node == mTail {
        mTail := mTail.mPrevious;
      }
    }

    method LeaveNeighbours(node: LListNode<T>, ghost k: nat)
      requires k < |nodes| && nodes[k] == node && HalfDeleted(k)
      modifies this`nodes, nodes`mNext, nodes`mPrevious
      ensures Linked() && nodes == old(nodes)[..k] + old(nodes)[k + 1..]
    {
      ghost var was := nodes;
      assert k + 1 < |nodes| ==> nodes[k].mNext == nodes[k + 1];
      assert k > 0 ==> nodes[k].mPrevious == nodes[k - 1];
      var nxt := node.mNext;
      var pre := node.mPrevious;
      if nxt != null {
        nxt.mPrevious := pre;
      }
      if pre != null {
        pre.mNext := nxt;
      }
      nodes := nodes[..k] + nodes[k + 1..];
      assert forall i :: 0 <= i < k ==> nodes[i] == was[i];
      assert forall i :: k <= i < |nodes| ==> nodes[i] == was[i + 1];
      forall i, j | 0 <= i < j < |nodes| && j == i + 1
        ensures nodes[i].mNext == nodes[j] && nodes[j].mPrevious == nodes[i]
      {
        if j < k {
          assert old(was[i].mNext == was[j] && was[j].mPrevious == was[i]);
        } else if k <= i {
          assert old(was[i + 1].mNext == was[j + 1] && was[j + 1].mPrevious == was[i + 1]);
        }
      }
    }

    /** Takes out any node of the list. The iterators are told when the ends have moved already
        but the neighbours are still linked to the node. mElements is left as it was. */
    method DeletePresent(node: LListNode<T>)
      requires Valid() && node in nodes
      modifies this, nodes`mNext, nodes`mPrevious, m_ObsList`mItr
      ensures Valid() && m_ObsList == old(m_ObsList) && mElements == old(mElements)
      ensures var k := IndexOf(old(nodes), node);
              nodes == old(nodes)[..k] + old(nodes)[k + 1..] && deletes == old(deletes) + 1
              && forall o :: o in m_ObsList ==> Opt(o.mItr) == AfterDelete(old(nodes), k, old(Opt(o.mItr)))
    {
      hide Chained, CursorOk, AfterDelete, Repaired, IndexOf;
      ghost var was := nodes;
      ghost var k := IndexOf(nodes, node);
      LeaveEnds(node, k);
      ghost var next, previous := node.mNext, node.mPrevious;
      CallListener(Event.DeleteNode, node);
      forall o | o in m_ObsList
        ensures Opt(o.mItr) == AfterDelete(was, k, old(Opt(o.mItr))) && CursorOk(was[..k] + was[k + 1..], Opt(o.mItr))
      {
        RepairAtDelete(was, k, next, previous, mHead, mTail, old(o.mItr));
      }
      LeaveNeighbours(node, k);
      deletes := deletes + 1;
    }

    method Delete(node: LListNode?<T>)
      requires Valid() && (node != null ==> node in nodes)
      modifies this, nodes`mNext, nodes`mPrevious, m_ObsList`mItr
      ensures Valid() && m_ObsList == old(m_ObsList) && mElements == old(mElements)
      ensures node == null ==> nodes == old(nodes) && deletes == old(deletes)
                               && forall o :: o in m_ObsList ==> o.mItr == old(o.mItr)
      ensures node != null ==>
                var k := IndexOf(old(nodes), node);
                nodes == old(nodes)[..k] + old(nodes)[k + 1..] && deletes == old(deletes) + 1
                && forall o :: o in m_ObsList ==> Opt(o.mItr) == AfterDelete(old(nodes), k, old(Opt(o.mItr)))
    {
      if node != null {
        DeletePresent(node);
      }
    }

    method Clear()
      requires Valid()
      modifies this, m_ObsList`mItr
      ensures Valid() && m_ObsList == old(m_ObsList) && nodes == [] && deletes == 0
      ensures forall o :: o in m_ObsList ==> o.mItr == null
    {
      var node := mHead;
      ghost var i := 0;
      while node != null
        invariant mHead == node && m_ObsList == old(m_ObsList) && nodes == old(nodes)
        invariant 0 <= i <= |nodes| && node == if i < |nodes| then nodes[i] else null
        modifies this`mHead
        decreases |nodes| - i
      {
        assert i + 1 < |nodes| ==> nodes[i].mNext == nodes[i + 1];
        mHead := mHead.mNext;
        node := mHead;
        i := i + 1;
      }
      mHead := null;
      mTail := null;
      mElements := 0;
      nodes := [];
      deletes := 0;
      assert Linked();
      hide Linked;
      CallListener(ClearedAll, null);
    }

    /** Subject::Notify for this list: every registered iterator is told, in any order. */
    method CallListener(ev: Event, node: LListNode?<T>)
      requires forall o :: o in m_ObsList ==> o.mList == this
      requires ev != ClearedAll && ev != AddNodeFront && ev != AddNodeBack ==> node != null
      modifies m_ObsList`mItr
      ensures forall o :: o in m_ObsList ==>
                o.mItr == Repaired(ev, node, if node == null then null else node.mNext, if node == null then null else node.mPrevious,
                                   mHead, mTail, old(o.mItr))
    {
      var todo := m_ObsList;
      while todo != {}
        invariant todo <= m_ObsList
        invariant forall o :: o in m_ObsList && o in todo ==> o.mItr == old(o.mItr)
        invariant forall o :: o in m_ObsList && o !in todo ==>
                    o.mItr == Repaired(ev, node, if node == null then null else node.mNext, if node == null then null else node.mPrevious,
                                       mHead, mTail, old(o.mItr))
      {
        var o :| o in todo;
        o.Notify(ev, node);
        todo := todo - {o};
      }
    }
  }

  class LinkedListItr<T> {
    const mList: LinkedList<T>
    var mItr: LListNode?<T>

    method Notify(ev: Event, node: LListNode?<T>)
      requires ev != ClearedAll && ev != AddNodeFront && ev != AddNodeBack ==> node != null
      modifies this`mItr
      ensures mItr == Repaired(ev, node, if node == null then null else node.mNext, if node == null then null else node.mPrevious,
                               mList.mHead, mList.mTail, old(mItr))
    {
      match ev
      case AddNodeFront =>
        if mItr == null { mItr := mList.mHead; }
      case AddNodeBack =>
        if mItr == null { mItr := mList.mTail; }
      case DeleteNodeFront =>
        if mItr == node {
          if mItr.mNext != null { mItr := mItr.mNext; } else { mItr := null; }
        }
      case DeleteNodeBack =>
        if mItr == node {
          if mItr.mPrevious != null { mItr := mItr.mPrevious; } else { mItr := null; }
        }
      case DeleteNode =>
        if mItr == node {
          if mItr.mPrevious != null { mItr := mItr.mPrevious; }
          else if mItr.mNext != null { mItr := mItr.mNext; }
          else { mItr := null; }
        }
      case ClearedAll =>
        mItr := null;
    }

    constructor (list: LinkedList<T>)
      requires list.Valid()
      modifies list`m_ObsList
      ensures mList == list && list.Valid() && list.m_ObsList == old(list.m_ObsList) + {this}
      ensures Opt(mItr) == FirstOf(list.nodes)
    {
      mList := list;
      mItr := list.mHead;
      new;
      list.m_ObsList := list.m_ObsList + {this};
    }

    /** ~IObserver */
    method Destroy()
      requires mList.Valid()
      modifies mList`m_ObsList
      ensures mList.Valid() && mList.m_ObsList == old(mList.m_ObsList) - {this}
    {
      mList.m_ObsList := mList.m_ObsList - {this};
    }

    method Next()
      requires mList.Valid() && this in mList.m_ObsList
      modifies this`mItr
      ensures mList.Valid() && Opt(mItr) == OneOn(mList.nodes, old(Opt(mItr)))
      ensures old(mItr) == null ==> mItr == null
      ensures forall k :: 0 <= k < |mList.nodes| && old(mItr) == mList.nodes[k] ==>
                mItr == mList.nodes[if k + 1 < |mList.nodes| then k + 1 else k]
    {
      if mItr == null { return; }
      var n := mList.Size();
      if n == 0 { return; }
      ghost var k :| 0 <= k < |mList.nodes| && mList.nodes[k] == mItr;
      StepFrom(mList.nodes, k);
      assert k + 1 < |mList.nodes| ==> mList.nodes[k].mNext == mList.nodes[k + 1];
      if mItr != mList.mTail {
        mItr := mItr.mNext;
      }
    }

    method Previous()
      requires mList.Valid() && this in mList.m_ObsList
      modifies this`mItr
      ensures mList.Valid() && Opt(mItr) == OneBack(mList.nodes, old(Opt(mItr)))
      ensures old(mItr) == null ==> mItr == null
      ensures forall k :: 0 <= k < |mList.nodes| && old(mItr) == mList.nodes[k] ==>
                mItr == mList.nodes[if k > 0 then k - 1 else 0]
    {
      if mItr == null { return; }
      var n := mList.Size();
      if n == 0 { return; }
      ghost var k :| 0 <= k < |mList.nodes| && mList.nodes[k] == mItr;
      StepFrom(mList.nodes, k);
      assert k > 0 ==> mList.nodes[k].mPrevious == mList.nodes[k - 1];
      if mItr != mList.mHead {
        mItr := mItr.mPrevious;
      }
    }

    method SetToFront()
      requires mList.Valid() && this in mList.m_ObsList
      modifies this`mItr
      ensures mList.Valid() && Opt(mItr) == FirstOf(mList.nodes)
    {
      mItr := mList.mHead;
    }

    method SetToBack()
      requires mList.Valid() && this in mList.m_ObsList
      modifies this`mItr
      ensures mList.Valid() && Opt(mItr) == LastOf(mList.nodes)
    {
      mItr := mList.mTail;
    }

    /** Deletes the node the iterator is at; the iterator itself is among those that are told. */
    method DeleteThis()
      requires mList.Valid() && this in mList.m_ObsList
      modifies mList, mList.nodes`mNext, mList.nodes`mPrevious, mList.m_ObsList`mItr
      ensures mList.Valid() && mList.m_ObsList == old(mList.m_ObsList) && mList.mElements == old(mList.mElements)
      ensures old(mItr) == null ==> mList.nodes == old(mList.nodes) && mList.deletes == old(mList.deletes)
                                    && forall o :: o in mList.m_ObsList ==> o.mItr == old(o.mItr)
      ensures old(mItr) != null ==>
                var k := IndexOf(old(mList.nodes), old(mItr));
                mList.nodes == old(mList.nodes)[..k] + old(mList.nodes)[k + 1..] && mList.deletes == old(mList.deletes) + 1
                && forall o :: o in mList.m_ObsList ==>
                          Opt(o.mItr) == AfterDelete(old(mList.nodes), k, old(Opt(o.mItr)))
    {
      mList.Delete(mItr);
    }
  }

  // ---------------------------------------------------------------- the objects as a state of ListModel

  /** A list and some of its iterators, in some order. */
  ghost function ListOf<T>(l: LinkedList<T>, itrs: seq<LinkedListItr<T>>): ListState<LListNode<T>>
    reads l, itrs
  {
    ListState(l.nodes, seq(|itrs|, i requires 0 <= i < |itrs| reads itrs => Opt(itrs[i].mItr)), l.mElements, l.deletes)
  }

  lemma ValidIsRobust<T>(l: LinkedList<T>, itrs: seq<LinkedListItr<T>>)
    requires l.Valid() && forall i :: 0 <= i < |itrs| ==> itrs[i] in l.m_ObsList
    ensures Robust(ListOf(l, itrs))
  {
  }

  /** `itrs` are the iterators of the list, each once. */
  ghost predicate ItrsOf<T>(l: LinkedList<T>, itrs: seq<LinkedListItr<T>>)
    reads l
  {
    Distinct(itrs) && l.m_ObsList == set o | o in itrs
  }

  /** Where nodes, Deletes and iterators are those of an operation, so is the whole state. */
  lemma Follows<N>(s: ListState<N>, op: Op<N>, t: ListState<N>)
    requires Robust(s) && Robust(t) && t.items == Apply(s, op).items && t.deletes == Apply(s, op).deletes
    requires |t.cursors| == |Apply(s, op).cursors|
    requires forall i :: 0 <= i < |t.cursors| ==> t.cursors[i] == Apply(s, op).cursors[i]
    ensures t == Apply(s, op)
  {
    ApplyKeepsRobust(s, op);
  }

  /** The same for Delete of a member or of null. */
  lemma DeleteFollows<N>(s: ListState<N>, node: Option<N>, t: ListState<N>)
    requires Robust(s) && Robust(t) && |t.cursors| == |s.cursors| && (node.Some? ==> node.value in s.items)
    requires node == None ==> t.items == s.items && t.deletes == s.deletes && t.cursors == s.cursors
    requires node.Some? ==>
               var k := IndexOf(s.items, node.value);
               && t.items == s.items[..k] + s.items[k + 1..] && t.deletes == s.deletes + 1
               && forall i :: 0 <= i < |s.cursors| ==> t.cursors[i] == AfterDelete(s.items, k, s.cursors[i])
    ensures t == Apply(s, DeleteAt(if node == None then |s.items| else IndexOf(s.items, node.value)))
    ensures forall i :: 0 <= i < |s.cursors| && s.cursors[i] == node ==> t == Apply(s, DeleteThis(i))
  {
  }

  lemma ItrOf<T>(l: LinkedList<T>, itrs: seq<LinkedListItr<T>>, i: nat)
    requires l.Valid() && ItrsOf(l, itrs) && i < |itrs|
    ensures itrs[i] in l.m_ObsList && itrs[i].mList == l && Robust(ListOf(l, itrs))
    ensures itrs[i].mItr != null ==> itrs[i].mItr in l.nodes
  {
    assert CursorOk(l.nodes, Opt(itrs[i].mItr));
  }

  // Every method is an operation: each of these makes one call and uses nothing of it but its
  // promise. So what ListModel proves of whole runs holds of the list and its iterators in the heap.

  method InsertAtBackIsOperation<T>(l: LinkedList<T>, itrs: seq<LinkedListItr<T>>, data: T)
    requires l.Valid() && ItrsOf(l, itrs)
    modifies l, l.nodes, l.m_ObsList
    ensures l.Valid() && ItrsOf(l, itrs) && l.nodes != [] && ListOf(l, itrs) == Apply(old(ListOf(l, itrs)), InsertBack(l.nodes[|l.nodes| - 1]))
  {
    ghost var s := ListOf(l, itrs);
    l.InsertAtBack(data);
    Follows(s, InsertBack(l.nodes[|l.nodes| - 1]), ListOf(l, itrs));
  }

  method InsertAtFrontIsOperation<T>(l: LinkedList<T>, itrs: seq<LinkedListItr<T>>, data: T)
    requires l.Valid() && ItrsOf(l, itrs)
    modifies l, l.nodes, l.m_ObsList
    ensures l.Valid() && ItrsOf(l, itrs) && l.nodes != [] && ListOf(l, itrs) == Apply(old(ListOf(l, itrs)), InsertFront(l.nodes[0]))
  {
    ghost var s := ListOf(l, itrs);
    l.InsertAtFront(data);
    Follows(s, InsertFront(l.nodes[0]), ListOf(l, itrs));
  }

  method RemoveFromFrontIsOperation<T>(l: LinkedList<T>, itrs: seq<LinkedListItr<T>>)
    requires l.Valid() && ItrsOf(l, itrs)
    modifies l, l.nodes, l.m_ObsList
    ensures l.Valid() && ItrsOf(l, itrs) && ListOf(l, itrs) == Apply(old(ListOf(l, itrs)), RemoveFront)
  {
    ghost var s := ListOf(l, itrs);
    var _ := l.RemoveFromFront();
    Follows(s, RemoveFront, ListOf(l, itrs));
  }

  method RemoveFromBackIsOperation<T>(l: LinkedList<T>, itrs: seq<LinkedListItr<T>>)
    requires l.Valid() && ItrsOf(l, itrs)
    modifies l, l.nodes, l.m_ObsList
    ensures l.Valid() && ItrsOf(l, itrs) && ListOf(l, itrs) == Apply(old(ListOf(l, itrs)), RemoveBack)
  {
    ghost var s := ListOf(l, itrs);
    var _ := l.RemoveFromBack();
    Follows(s, RemoveBack, ListOf(l, itrs));
  }

  method DeleteIsOperation<T>(l: LinkedList<T>, itrs: seq<LinkedListItr<T>>, node: LListNode?<T>)
    requires l.Valid() && ItrsOf(l, itrs) && (node != null ==> node in l.nodes)
    modifies l, l.nodes, l.m_ObsList
    ensures l.Valid() && ItrsOf(l, itrs) && ListOf(l, itrs) == Apply(old(ListOf(l, itrs)), DeleteAt(if node == null then |old(l.nodes)| else IndexOf(old(l.nodes), node)))
  {
    ghost var s := ListOf(l, itrs);
    ValidIsRobust(l, itrs);
    hide LinkedList.Chained, CursorOk, AfterDelete, IndexOf, Apply;
    l.Delete(node);
    ValidIsRobust(l, itrs);
    DeleteFollows(s, Opt(node), ListOf(l, itrs));
  }

  method ClearIsOperation<T>(l: LinkedList<T>, itrs: seq<LinkedListItr<T>>)
    requires l.Valid() && ItrsOf(l, itrs)
    modifies l, l.nodes, l.m_ObsList
    ensures l.Valid() && ItrsOf(l, itrs) && ListOf(l, itrs) == Apply(old(ListOf(l, itrs)), Clear)
  {
    ghost var s := ListOf(l, itrs);
    l.Clear();
    Follows(s, Clear, ListOf(l, itrs));
  }

  method NewItrIsOperation<T>(l: LinkedList<T>, itrs: seq<LinkedListItr<T>>) returns (itrs': seq<LinkedListItr<T>>)
    requires l.Valid() && ItrsOf(l, itrs)
    modifies l`m_ObsList
    ensures l.Valid() && ItrsOf(l, itrs') && ListOf(l, itrs') == Apply(old(ListOf(l, itrs)), Attach)
  {
    ghost var s := ListOf(l, itrs);
    var itr := new LinkedListItr(l);
    itrs' := itrs + [itr];
    Follows(s, Attach, ListOf(l, itrs'));
  }

  method DestroyIsOperation<T>(l: LinkedList<T>, itrs: seq<LinkedListItr<T>>, i: nat) returns (itrs': seq<LinkedListItr<T>>)
    requires l.Valid() && ItrsOf(l, itrs) && i < |itrs|
    modifies l`m_ObsList
    ensures l.Valid() && ItrsOf(l, itrs') && ListOf(l, itrs') == Apply(old(ListOf(l, itrs)), Detach(i))
  {
    ghost var s := ListOf(l, itrs);
    itrs[i].Destroy();
    itrs' := itrs[..i] + itrs[i + 1..];
    Follows(s, Detach(i), ListOf(l, itrs'));
  }

  method NextIsOperation<T>(l: LinkedList<T>, itrs: seq<LinkedListItr<T>>, i: nat)
    requires l.Valid() && ItrsOf(l, itrs) && i < |itrs|
    modifies l.m_ObsList`mItr
    ensures l.Valid() && ItrsOf(l, itrs) && ListOf(l, itrs) == Apply(old(ListOf(l, itrs)), Forward(i))
  {
    ghost var s := ListOf(l, itrs);
    itrs[i].Next();
    Follows(s, Forward(i), ListOf(l, itrs));
  }

  method PreviousIsOperation<T>(l: LinkedList<T>, itrs: seq<LinkedListItr<T>>, i: nat)
    requires l.Valid() && ItrsOf(l, itrs) && i < |itrs|
    modifies l.m_ObsList`mItr
    ensures l.Valid() && ItrsOf(l, itrs) && ListOf(l, itrs) == Apply(old(ListOf(l, itrs)), Backward(i))
  {
    ghost var s := ListOf(l, itrs);
    itrs[i].Previous();
    Follows(s, Backward(i), ListOf(l, itrs));
  }

  method SetToFrontIsOperation<T>(l: LinkedList<T>, itrs: seq<LinkedListItr<T>>, i: nat)
    requires l.Valid() && ItrsOf(l, itrs) && i < |itrs|
    modifies l.m_ObsList`mItr
    ensures l.Valid() && ItrsOf(l, itrs) && ListOf(l, itrs) == Apply(old(ListOf(l, itrs)), ToFront(i))
  {
    ghost var s := ListOf(l, itrs);
    itrs[i].SetToFront();
    Follows(s, ToFront(i), ListOf(l, itrs));
  }

  method SetToBackIsOperation<T>(l: LinkedList<T>, itrs: seq<LinkedListItr<T>>, i: nat)
    requires l.Valid() && ItrsOf(l, itrs) && i < |itrs|
    modifies l.m_ObsList`mItr
    ensures l.Valid() && ItrsOf(l, itrs) && ListOf(l, itrs) == Apply(old(ListOf(l, itrs)), ToBack(i))
  {
    ghost var s := ListOf(l, itrs);
    itrs[i].SetToBack();
    Follows(s, ToBack(i), ListOf(l, itrs));
  }

  method DeleteThisIsOperation<T>(l: LinkedList<T>, itrs: seq<LinkedListItr<T>>, i: nat)
    requires l.Valid() && ItrsOf(l, itrs) && i < |itrs|
    modifies l, l.nodes, l.m_ObsList
    ensures l.Valid() && ItrsOf(l, itrs) && ListOf(l, itrs) == Apply(old(ListOf(l, itrs)), DeleteThis(i))
  {
    ghost var s := ListOf(l, itrs);
    ItrOf(l, itrs, i);
    hide LinkedList.Valid, Robust, AfterDelete, IndexOf, Apply;
    itrs[i].DeleteThis();
    ValidIsRobust(l, itrs);
    DeleteFollows(s, s.cursors[i], ListOf(l, itrs));
  }
}
