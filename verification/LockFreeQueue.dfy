/**
 * The list-based queue of LockFreeQueue.h. A node keeps its identity for as long as it is in
 * the list; an iterator is such an identity or the list's end. push and pop are cut into the
 * single accesses they make, so that a writer and a reader can be interleaved.
 */
module LockFreeQueue {
  import opened Basics

  datatype Node<T> = Node(id: nat, data: T)

  datatype Itr = At(id: nat) | End

  /** mQ, mHead, mTail, mMaxSize, and the identity the next new node will get. */
  datatype Lfq<T> = Lfq(nodes: seq<Node<T>>, head: Itr, tail: Itr, maxSize: nat, nextId: nat)

  /** Where the writer is inside push. */
  datatype WriterPC = WBegin | WErase(last: Itr) | WCheck | WHook | WTail | WDone(ok: bool)

  /** Where the reader is inside pop. */
  datatype ReaderPC<T> = RBegin | RNext(at: Itr) | RCmp(next: Itr) | RSet(next: Itr) | RCopy | RDone(out: Option<T>)

  const UINT_RANGE := 0x1_0000_0000
  const INT_MAX := 0x7fff_ffff

  function Init<T>(dummy: T, maxSize: nat): Lfq<T>
  {
    Lfq([Node(0, dummy)], At(0), End, maxSize, 1)
  }

  function Begin<T>(q: Lfq<T>): Itr
  {
    if q.nodes == [] then End else At(q.nodes[0].id)
  }

  /** Position of a node in the list; the list's length when the node is not in it. */
  function Pos<T>(nodes: seq<Node<T>>, id: nat): (k: nat)
    ensures k <= |nodes|
    ensures k < |nodes| ==> nodes[k].id == id
  {
    if nodes == [] || nodes[0].id == id then 0 else 1 + Pos(nodes[1..], id)
  }

  /** ++itr: None when the iterator's node has been freed, or is the end. */
  function Successor<T>(q: Lfq<T>, it: Itr): Option<Itr>
  {
    if it.End? || Pos(q.nodes, it.id) == |q.nodes| then None
    else if Pos(q.nodes, it.id) + 1 == |q.nodes| then Some(End)
    else Some(At(q.nodes[Pos(q.nodes, it.id) + 1].id))
  }

  /** *itr: None when the iterator's node has been freed, or is the end. */
  function Deref<T>(q: Lfq<T>, it: Itr): Option<T>
  {
    if it.End? || Pos(q.nodes, it.id) == |q.nodes| then None
    else Some(q.nodes[Pos(q.nodes, it.id)].data)
  }

  function Values<T>(nodes: seq<Node<T>>): (vs: seq<T>)
    ensures |vs| == |nodes|
    ensures forall i :: 0 <= i < |vs| ==> vs[i] == nodes[i].data
  {
    seq(|nodes|, i requires 0 <= i < |nodes| => nodes[i].data)
  }

  /** The elements still to be popped: the values of the nodes behind mHead. */
  function Live<T>(q: Lfq<T>): seq<T>
  {
    if q.head.End? || Pos(q.nodes, q.head.id) == |q.nodes| then []
    else Values(q.nodes[Pos(q.nodes, q.head.id) + 1..])
  }

  /** One access of push; `data` is what the reference passed to push holds at that moment. */
  function WStep<T>(q: Lfq<T>, w: WriterPC, data: T): Option<(Lfq<T>, WriterPC)>
  {
    match w
    case WBegin => Some((q, WErase(q.head)))
    case WErase(last) =>
      if Begin(q) == last then Some((q, WCheck))
      else if q.nodes == [] then None
      else Some((q.(nodes := q.nodes[1..]), w))
    case WCheck => Some((q, if q.maxSize < |q.nodes| then WDone(false) else WHook))
    case WHook => Some((q.(nodes := q.nodes + [Node(q.nextId, data)], nextId := q.nextId + 1), WTail))
    case WTail => Some((q.(tail := End), WDone(true)))
    case WDone(_) => Some((q, w))
  }

  /** One access of pop. */
  function RStep<T>(q: Lfq<T>, r: ReaderPC<T>): Option<(Lfq<T>, ReaderPC<T>)>
  {
    match r
    case RBegin => Some((q, RNext(q.head)))
    case RNext(at) =>
      (match Successor(q, at)
       case None => None
       case Some(n) => Some((q, RCmp(n))))
    case RCmp(n) => Some((q, if n != q.tail then RSet(n) else RDone(None)))
    case RSet(n) => Some((q.(head := n), RCopy))
    case RCopy =>
      (match Deref(q, q.head)
       case None => None
       case Some(v) => Some((q, RDone(Some(v)))))
    case RDone(_) => Some((q, r))
  }

  // ---------------------------------------------------------------- invariant

  /** Nodes are linked in the order of their creation, mHead is one of them, mTail is the end. */
  ghost predicate Chain<T>(q: Lfq<T>)
  {
    && 0 < |q.nodes|
    && (forall i :: 0 <= i < |q.nodes| ==> q.nodes[i].id == q.nodes[0].id + i)
    && q.nextId == q.nodes[0].id + |q.nodes|
    && q.head.At? && q.nodes[0].id <= q.head.id < q.nextId
    && q.tail == End
  }

  ghost predicate QOk<T>(q: Lfq<T>)
  {
    Chain(q) && |q.nodes| <= q.maxSize + 1
  }

  /** What a writer between two accesses may rely on, whatever the reader does. */
  ghost predicate WOk<T>(q: Lfq<T>, w: WriterPC)
    requires QOk(q)
  {
    match w
    case WErase(last) => last.At? && q.nodes[0].id <= last.id <= q.head.id
    case WHook => |q.nodes| <= q.maxSize
    case _ => true
  }

  /** What a reader between two accesses may rely on, whatever the writer does. */
  ghost predicate ROk<T>(q: Lfq<T>, r: ReaderPC<T>)
    requires QOk(q)
  {
    match r
    case RNext(at) => at == q.head
    case RCmp(n) => n == End || (n == At(q.head.id + 1) && q.head.id + 1 < q.nextId)
    case RSet(n) => n == At(q.head.id + 1) && q.head.id + 1 < q.nextId
    case _ => true
  }

  lemma {:induction false} PosFirst<T>(nodes: seq<Node<T>>, id: nat, k: nat)
    requires k < |nodes| && nodes[k].id == id && forall i :: 0 <= i < k ==> nodes[i].id != id
    ensures Pos(nodes, id) == k
  {
    if k > 0 {
      assert nodes[0].id != id;
      PosFirst(nodes[1..], id, k - 1);
    }
  }

  lemma PosOk<T>(q: Lfq<T>, id: nat)
    requires Chain(q) && q.nodes[0].id <= id < q.nextId
    ensures Pos(q.nodes, id) == id - q.nodes[0].id
  {
    hide Pos;
    PosFirst(q.nodes, id, id - q.nodes[0].id);
  }

  lemma LiveOk<T>(q: Lfq<T>)
    requires Chain(q)
    ensures Live(q) == Values(q.nodes[q.head.id - q.nodes[0].id + 1..])
    ensures |Live(q)| == q.nextId - q.head.id - 1
  {
    PosOk(q, q.head.id);
  }

  lemma InitOk<T>(dummy: T, maxSize: nat)
    ensures QOk(Init(dummy, maxSize)) && Live(Init(dummy, maxSize)) == []
  {
    LiveOk(Init(dummy, maxSize));
  }

  /**
   * Any single access of the writer is defined, keeps its own and the reader's expectations,
   * and keeps mHead and every node from mHead on.
   */
  lemma WriterStep<T>(q: Lfq<T>, w: WriterPC, data: T, r: ReaderPC<T>)
    requires QOk(q) && WOk(q, w) && ROk(q, r)
    ensures WStep(q, w, data).Some?
    ensures var (q', w') := WStep(q, w, data).value;
            && QOk(q') && WOk(q', w') && ROk(q', r)
            && q'.head == q.head && q'.maxSize == q.maxSize
            && q'.nextId == q.nextId + (if w.WHook? then 1 else 0)
            && (forall i :: 0 <= i < |q.nodes| && q.head.id <= q.nodes[i].id ==> q.nodes[i] in q'.nodes)
  {
    var (q', w') := WStep(q, w, data).value;
    if w.WErase? && Begin(q) != w.last {
      assert q'.nodes[0] == q.nodes[1];
      assert forall i :: 0 <= i < |q'.nodes| ==> q'.nodes[i] == q.nodes[i + 1];
      forall i | 0 <= i < |q.nodes| && q.head.id <= q.nodes[i].id ensures q.nodes[i] in q'.nodes {
        assert q.nodes[i] == q'.nodes[i - 1];
      }
    }
    if w.WHook? {
      forall i | 0 <= i < |q.nodes| ensures q.nodes[i] in q'.nodes {
        assert q.nodes[i] == q'.nodes[i];
      }
    }
  }

  lemma LiveErase<T>(q: Lfq<T>)
    requires Chain(q) && q.nodes[0].id < q.head.id
    ensures Chain(q.(nodes := q.nodes[1..])) && Live(q.(nodes := q.nodes[1..])) == Live(q)
  {
    hide Pos, Live;
    var q' := q.(nodes := q.nodes[1..]);
    assert q'.nodes[0] == q.nodes[1];
    LiveOk(q);
    LiveOk(q');
    var k := q.head.id - q.nodes[0].id + 1;
    assert q.nodes[1..][k - 1..] == q.nodes[k..];
  }

  lemma LiveHook<T>(q: Lfq<T>, data: T)
    requires Chain(q) && |q.nodes| <= q.maxSize
    ensures var q' := q.(nodes := q.nodes + [Node(q.nextId, data)], nextId := q.nextId + 1);
            QOk(q') && Live(q') == Live(q) + [data]
  {
    hide Pos, Live;
    var n := Node(q.nextId, data);
    var q' := q.(nodes := q.nodes + [n], nextId := q.nextId + 1);
    LiveOk(q);
    LiveOk(q');
    var k := q.head.id - q.nodes[0].id + 1;
    assert (q.nodes + [n])[k..] == q.nodes[k..] + [n];
    assert Values(q.nodes[k..] + [n]) == Values(q.nodes[k..]) + [data];
  }

  /** The writer changes the content only where it hooks the new node in: data goes to the back. */
  lemma WriterLive<T>(q: Lfq<T>, w: WriterPC, data: T)
    requires QOk(q) && WOk(q, w)
    ensures WStep(q, w, data).Some? && QOk(WStep(q, w, data).value.0)
    ensures Live(WStep(q, w, data).value.0) == Live(q) + (if w.WHook? then [data] else [])
  {
    match w
    case WErase(last) => if Begin(q) != last { LiveErase(q); }
    case WHook => LiveHook(q, data);
    case WTail => assert q.(tail := End) == q;
    case _ =>
  }

  /** Any single access of the reader is defined and keeps its own and the writer's expectations. */
  lemma ReaderStep<T>(q: Lfq<T>, r: ReaderPC<T>, w: WriterPC)
    requires QOk(q) && ROk(q, r) && WOk(q, w)
    ensures RStep(q, r).Some?
    ensures var (q', r') := RStep(q, r).value;
            && QOk(q') && ROk(q', r') && WOk(q', w)
            && q'.nodes == q.nodes && q'.nextId == q.nextId && q'.maxSize == q.maxSize
            && q'.head == (if r.RSet? then At(q.head.id + 1) else q.head)
            && (r.RNext? ==> r' == RCmp(if q.head.id + 1 < q.nextId then At(q.head.id + 1) else End))
  {
    PosOk(q, q.head.id);
  }

  /** mHead moved on by one node: the oldest element is gone from the content and readable there. */
  lemma HeadMoved<T>(q: Lfq<T>)
    requires Chain(q) && q.head.id + 1 < q.nextId
    ensures var q' := q.(head := At(q.head.id + 1));
            Chain(q') && Live(q) != [] && Live(q') == Live(q)[1..] && Deref(q', q'.head) == Some(Live(q)[0])
  {
    var q' := q.(head := At(q.head.id + 1));
    LiveOk(q);
    LiveOk(q');
    var k := q.head.id - q.nodes[0].id + 1;
    assert q.nodes[k + 1..] == q.nodes[k..][1..];
    assert Values(q.nodes[k..][1..]) == Values(q.nodes[k..])[1..];
    PosOk(q', q'.head.id);
  }

  /**
   * The reader changes the content only where it moves mHead on, which takes the oldest element
   * away and leaves it readable through mHead; it finds no successor exactly when there is no
   * element.
   */
  lemma ReaderLive<T>(q: Lfq<T>, r: ReaderPC<T>)
    requires QOk(q) && ROk(q, r)
    ensures RStep(q, r).Some? && QOk(RStep(q, r).value.0)
    ensures var (q', r') := RStep(q, r).value;
            && (if r.RSet? then Live(q) != [] && Live(q') == Live(q)[1..] && Deref(q', q'.head) == Some(Live(q)[0])
                else Live(q') == Live(q))
            && (r.RNext? ==> (r' == RCmp(End) <==> Live(q) == []))
  {
    ReaderStep(q, r, WBegin);
    var q' := RStep(q, r).value.0;
    LiveOk(q);
    LiveOk(q');
    if r.RSet? { HeadMoved(q); }
  }

  // ---------------------------------------------------------------- one writer and one reader

  /** A writer and a reader at work on one queue, with what they pushed, popped and returned so far. */
  datatype Spsc<T> = Spsc(q: Lfq<T>, w: WriterPC, arg: T, r: ReaderPC<T>,
                          pushed: seq<T>, popped: seq<T>, returned: seq<T>)

  datatype Move<T> = CallPush(data: T) | Write | CallPop | Read

  /** One move; None if it touches a freed node. A call is ignored while the last one still runs. */
  function Turn<T>(s: Spsc<T>, m: Move<T>): Option<Spsc<T>>
  {
    match m
    case CallPush(data) => Some(if s.w.WDone? then s.(w := WBegin, arg := data) else s)
    case Write =>
      (match WStep(s.q, s.w, s.arg)
       case None => None
       case Some(n) => Some(s.(q := n.0, w := n.1, pushed := s.pushed + if s.w.WHook? then [s.arg] else [])))
    case CallPop => Some(if s.r.RDone? then s.(r := RBegin) else s)
    case Read =>
      (match RStep(s.q, s.r)
       case None => None
       case Some(n) =>
         var moved := if s.r.RSet? && Deref(n.0, n.0.head).Some? then [Deref(n.0, n.0.head).value] else [];
         var out := if s.r.RCopy? && n.1.RDone? && n.1.out.Some? then [n.1.out.value] else [];
         Some(s.(q := n.0, r := n.1, popped := s.popped + moved, returned := s.returned + out)))
  }

  function Interleave<T>(s: Spsc<T>, moves: seq<Move<T>>): Option<Spsc<T>>
    decreases |moves|
  {
    if moves == [] then Some(s)
    else match Turn(s, moves[0])
         case None => None
         case Some(s') => Interleave(s', moves[1..])
  }

  function SpscInit<T>(dummy: T, maxSize: nat): Spsc<T>
  {
    Spsc(Init(dummy, maxSize), WDone(false), dummy, RDone(None), [], [], [])
  }

  ghost predicate SpscInv<T>(s: Spsc<T>)
  {
    && QOk(s.q) && WOk(s.q, s.w) && ROk(s.q, s.r)
    && s.pushed == s.popped + Live(s.q)
    && (s.r.RCopy? ==> Deref(s.q, s.q.head).Some? && s.popped == s.returned + [Deref(s.q, s.q.head).value])
    && (!s.r.RCopy? ==> s.popped == s.returned)
  }

  /** Nodes that stay in the list keep their value; in particular mHead's. */
  lemma HeadDataKept<T>(q: Lfq<T>, w: WriterPC, data: T)
    requires QOk(q) && WOk(q, w)
    ensures WStep(q, w, data).Some?
    ensures Deref(q, q.head).Some? && Deref(WStep(q, w, data).value.0, q.head) == Deref(q, q.head)
  {
    hide Live, Values;
    WriterStep(q, w, data, RBegin);
    var q' := WStep(q, w, data).value.0;
    PosOk(q, q.head.id);
    PosOk(q', q.head.id);
    var k := q.head.id - q.nodes[0].id;
    assert q.nodes[k] in q'.nodes;
  }

  lemma WriteKeepsInv<T>(s: Spsc<T>)
    requires SpscInv(s)
    ensures Turn(s, Write).Some? && SpscInv(Turn(s, Write).value)
    ensures Turn(s, Write).value.q.maxSize == s.q.maxSize
  {
    hide Pos, Live, Values;
    WriterStep(s.q, s.w, s.arg, s.r);
    WriterLive(s.q, s.w, s.arg);
    HeadDataKept(s.q, s.w, s.arg);
    var live' := Live(s.q) + if s.w.WHook? then [s.arg] else [];
    assert s.popped + live' == s.pushed + if s.w.WHook? then [s.arg] else [];
  }

  lemma ReadKeepsInv<T>(s: Spsc<T>)
    requires SpscInv(s)
    ensures Turn(s, Read).Some? && SpscInv(Turn(s, Read).value)
    ensures Turn(s, Read).value.q.maxSize == s.q.maxSize
  {
    hide Pos, Live, Values;
    ReaderStep(s.q, s.r, s.w);
    ReaderLive(s.q, s.r);
    if s.r.RSet? {
      assert Live(s.q) == [Live(s.q)[0]] + Live(s.q)[1..];
      assert s.popped + [Live(s.q)[0]] + Live(s.q)[1..] == s.pushed;
    }
  }

  lemma TurnKeepsInv<T>(s: Spsc<T>, m: Move<T>)
    requires SpscInv(s)
    ensures Turn(s, m).Some? && SpscInv(Turn(s, m).value)
    ensures Turn(s, m).value.q.maxSize == s.q.maxSize
  {
    match m
    case Write => WriteKeepsInv(s);
    case Read => ReadKeepsInv(s);
    case _ =>
  }

  /**
   * XLLFQ is a FIFO queue under every interleaving of one writer and one reader: nobody touches
   * a freed node, what was popped followed by what is still in the queue is what was pushed, the
   * values pop returned come in that order with none missing, and the bound holds throughout.
   */
  lemma SpscFifo<T>(dummy: T, maxSize: nat, moves: seq<Move<T>>)
    ensures Interleave(SpscInit(dummy, maxSize), moves).Some?
    ensures var s := Interleave(SpscInit(dummy, maxSize), moves).value;
            && s.pushed == s.popped + Live(s.q)
            && s.returned <= s.popped && |s.popped| <= |s.returned| + 1
            && |Live(s.q)| <= maxSize && |s.q.nodes| <= maxSize + 1
  {
    InitOk(dummy, maxSize);
    InterleaveKeepsInv(SpscInit(dummy, maxSize), moves);
    LiveOk(Interleave(SpscInit(dummy, maxSize), moves).value.q);
  }

  lemma {:induction false} InterleaveKeepsInv<T>(s: Spsc<T>, moves: seq<Move<T>>)
    requires SpscInv(s)
    ensures Interleave(s, moves).Some? && SpscInv(Interleave(s, moves).value) && Interleave(s, moves).value.q.maxSize == s.q.maxSize
    decreases |moves|
  {
    if moves != [] {
      TurnKeepsInv(s, moves[0]);
      InterleaveKeepsInv(Turn(s, moves[0]).value, moves[1..]);
    }
  }

  // ---------------------------------------------------------------- push and pop undisturbed

  /** push run to its end from the access `w`; None if it touches a freed node. */
  function PushFrom<T>(q: Lfq<T>, w: WriterPC, data: T): Option<(Lfq<T>, bool)>
    decreases match w case WBegin => 5 case WErase(_) => 4 case WCheck => 3 case WHook => 2 case WTail => 1 case WDone(_) => 0,
              |q.nodes|
  {
    if w.WDone? then Some((q, w.ok))
    else match WStep(q, w, data)
         case None => None
         case Some(n) => PushFrom(n.0, n.1, data)
  }

  /** pop run to its end from the access `r`; None if it touches a freed node. */
  function PopFrom<T>(q: Lfq<T>, r: ReaderPC<T>): Option<(Lfq<T>, Option<T>)>
    decreases match r case RBegin => 5 case RNext(_) => 4 case RCmp(_) => 3 case RSet(_) => 2 case RCopy => 1 case RDone(_) => 0
  {
    if r.RDone? then Some((q, r.out))
    else match RStep(q, r)
         case None => None
         case Some(n) => PopFrom(n.0, n.1)
  }

  class XLLFQ<T> {
    var mQ: seq<Node<T>>
    var mHead: Itr
    var mTail: Itr
    var mMaxSize: nat
    var created: nat  // how many nodes were ever linked in: the identity of the next one

    function State(): Lfq<T>
      reads this
    {
      Lfq(mQ, mHead, mTail, mMaxSize, created)
    }

    ghost predicate Valid()
      reads this
    {
      Chain(State()) && mMaxSize < UINT_RANGE
    }

    /** No more nodes are stored than the bound admits; only lowering the bound can break this. */
    ghost predicate WithinBound()
      reads this
    {
      |mQ| <= mMaxSize + 1
    }

    ghost function Contents(): seq<T>
      reads this
    {
      Live(State())
    }

    constructor (dummy: T)
      ensures Valid() && WithinBound() && Contents() == [] && mMaxSize == INT_MAX && State() == Init(dummy, INT_MAX)
    {
      mQ := [Node(0, dummy)];
      mHead := At(0);
      mTail := End;
      mMaxSize := INT_MAX;
      created := 1;
      new;
      InitOk(dummy, INT_MAX);
    }

    /** A negative size becomes a huge unsigned one. */
    method SetMaxSize(size: int)
      requires Valid()
      requires -0x8000_0000 <= size <= INT_MAX
      modifies this`mMaxSize
      ensures Valid() && Contents() == old(Contents())
      ensures mMaxSize == if size < 0 then UINT_RANGE + size else size
    {
      mMaxSize := size % UINT_RANGE;
    }

    method Push(data: T) returns (ok: bool)
      requires Valid()
      modifies this
      ensures Valid() && mMaxSize == old(mMaxSize) && (ok || old(WithinBound()) ==> WithinBound())
      ensures ok <==> |old(Contents())| < mMaxSize
      ensures Contents() == old(Contents()) + if ok then [data] else []
      ensures PushFrom(old(State()), WBegin, data) == Some((State(), ok))
    {
      hide Pos, Live;
      ghost var s0 := State();
      var last := mHead;
      LiveOk(s0);
      while (if mQ == [] then End else At(mQ[0].id)) != last
        invariant mHead == last && mMaxSize == old(mMaxSize) && created == old(created)
        invariant Valid() && |mQ| <= |s0.nodes| && mQ[0].id <= last.id && Live(State()) == Live(s0)
        invariant PushFrom(State(), WErase(last), data) == PushFrom(s0, WBegin, data)
        decreases |mQ|
      {
        LiveErase(State());
        mQ := mQ[1..];
      }
      LiveOk(State());
      assert PushFrom(State(), WCheck, data) == PushFrom(s0, WBegin, data);
      if mMaxSize < |mQ| {
        assert PushFrom(State(), WDone(false), data) == PushFrom(s0, WBegin, data);
        return false;
      }
      assert PushFrom(State(), WHook, data) == PushFrom(s0, WBegin, data);
      LiveHook(State(), data);
      mQ, created := mQ + [Node(created, data)], created + 1;
      assert PushFrom(State(), WTail, data) == PushFrom(s0, WBegin, data);
      assert WStep(State(), WTail, data) == Some((State().(tail := End), WDone(true)));
      mTail := End;
      assert PushFrom(State(), WDone(true), data) == PushFrom(s0, WBegin, data);
      return true;
    }

    method Pop() returns (out: Option<T>)
      requires Valid()
      modifies this`mHead
      ensures Valid() && WithinBound() == old(WithinBound())
      ensures out == if old(Contents()) == [] then None else Some(old(Contents())[0])
      ensures Contents() == if old(Contents()) == [] then [] else old(Contents())[1..]
      ensures PopFrom(old(State()), RBegin) == Some((State(), out))
    {
      ghost var s0 := State();
      PosOk(s0, s0.head.id);
      LiveOk(s0);
      var k := Pos(mQ, mHead.id) + 1;
      var next := if k == |mQ| then End else At(mQ[k].id);
      assert PopFrom(s0, RCmp(next)) == PopFrom(s0, RBegin);
      if next != mTail {
        assert PopFrom(s0, RSet(next)) == PopFrom(s0, RCmp(next));
        mHead := next;
        HeadMoved(s0);
        assert RStep(s0, RSet(next)) == Some((State(), RCopy));
        PosOk(State(), mHead.id);
        assert PopFrom(State(), RCopy) == PopFrom(s0, RBegin);
        return Some(mQ[k].data);
      }
      return None;
    }

    /** size() also counts the dummy and nodes that push has not erased yet. */
    method Size() returns (n: nat)
      requires Valid()
      ensures |Contents()| + 1 <= n && (WithinBound() ==> n <= mMaxSize + 1)
      ensures n == |Contents()| + 1 <==> Begin(State()) == mHead
    {
      LiveOk(State());
      return |mQ|;
    }
  }
}
