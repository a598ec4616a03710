/**
 * XLThreadEvent: a type and a byte buffer that copies of the event share. The first part says
 * what Write, Read and the byte form mean for sequences; the class works on the shared buffer and
 * tells what each call leaves the event's handle on. What that means for the handles' counters,
 * and why an event on a counter of null must not be copied, is proved in EventHandles.
 */
module ThreadEvent {
  import opened Basics
  import EH = EventHandles

  type byte = b: int | 0 <= b < 256

  const INT_MAX := 0x7fff_ffff
  const INT_RANGE := 0x1_0000_0000

  type int32 = i: int | -0x8000_0000 <= i <= INT_MAX

  // ---------------------------------------------------------------- integers as bytes

  /** The four bytes memcpy takes from an int, lowest first. */
  function IntBytes(i: int32): (bs: seq<byte>)
    ensures |bs| == 4 && ByteSum(bs) == i % INT_RANGE
  {
    var u := i % INT_RANGE;
    var v := u / 256;
    var w := v / 256;
    assert u == u % 256 + 256 * v && v == v % 256 + 256 * w && w == w % 256 + 256 * (w / 256);
    [u % 256, u / 256 % 256, u / 256 / 256 % 256, u / 256 / 256 / 256]
  }

  function ByteSum(bs: seq<byte>): int
    requires |bs| == 4
  {
    bs[0] as int + 256 * (bs[1] as int + 256 * (bs[2] as int + 256 * (bs[3] as int)))
  }

  function IntFrom(bs: seq<byte>): (i: int32)
    requires |bs| == 4
    ensures i % INT_RANGE == ByteSum(bs)
  {
    var u := ByteSum(bs);
    if u <= INT_MAX then u else u - INT_RANGE
  }

  lemma IntRoundTrip(i: int32)
    ensures IntFrom(IntBytes(i)) == i
  {
  }

  // ---------------------------------------------------------------- what Write and Read mean

  /** Write(place, input): the new payload, and the result; None is a null pointer. */
  function Written(payload: seq<byte>, place: int, input: Option<seq<byte>>): (seq<byte>, bool)
  {
    if input.Some? && 0 <= place && place + |input.value| <= |payload| then
      (payload[..place] + input.value + payload[place + |input.value|..], true)
    else if place == |payload| then
      (Added(payload, input), false)
    else
      (payload, false)
  }

  /** AddData: nothing to add wipes the event. */
  function Added(payload: seq<byte>, data: Option<seq<byte>>): seq<byte>
  {
    if data == None || data.value == [] then [] else payload + data.value
  }

  /** Read of `size` bytes at a place. */
  function ReadAt(payload: seq<byte>, place: int, size: nat): Option<seq<byte>>
  {
    if 0 <= place && place + size <= |payload| then Some(payload[place..place + size]) else None
  }

  /** A sequence of Writes, each at the place where the payload ends. */
  function AppendAll(payload: seq<byte>, inputs: seq<seq<byte>>): seq<byte>
    decreases |inputs|
  {
    if inputs == [] then payload else AppendAll(Written(payload, |payload|, Some(inputs[0])).0, inputs[1..])
  }

  function Concat(inputs: seq<seq<byte>>): seq<byte>
  {
    if inputs == [] then [] else inputs[0] + Concat(inputs[1..])
  }

  lemma {:induction false} AppendIsConcat(payload: seq<byte>, inputs: seq<seq<byte>>)
    ensures AppendAll(payload, inputs) == payload + Concat(inputs)
    decreases |inputs|
  {
    if inputs == [] {
      assert payload + [] == payload;
    } else {
      var next := Written(payload, |payload|, Some(inputs[0])).0;
      assert next == payload + inputs[0];
      AppendIsConcat(next, inputs[1..]);
      assert payload + inputs[0] + Concat(inputs[1..]) == payload + (inputs[0] + Concat(inputs[1..]));
    }
  }

  lemma {:induction false} ConcatAppend(a: seq<seq<byte>>, b: seq<seq<byte>>)
    ensures Concat(a + b) == Concat(a) + Concat(b)
  {
    if a == [] {
      assert a + b == b;
    } else {
      assert (a + b)[1..] == a[1..] + b && (a + b)[0] == a[0];
      ConcatAppend(a[1..], b);
    }
  }

  lemma Middle(a: seq<byte>, b: seq<byte>, c: seq<byte>)
    ensures ReadAt(a + (b + c), |a|, |b|) == Some(b)
  {
    assert (a + (b + c))[|a|..|a| + |b|] == b;
  }

  /**
   * Writes at the end of a new event add up: Read at the place where the k-th one was written
   * gives back exactly what was written there.
   */
  lemma WritesReadBack(inputs: seq<seq<byte>>, k: nat)
    requires k < |inputs|
    ensures AppendAll([], inputs) == Concat(inputs)
    ensures ReadAt(AppendAll([], inputs), |Concat(inputs[..k])|, |inputs[k]|) == Some(inputs[k])
  {
    AppendIsConcat([], inputs);
    ConcatAppend(inputs[..k], inputs[k..]);
    assert inputs[..k] + inputs[k..] == inputs;
    assert Concat(inputs[k..]) == inputs[k] + Concat(inputs[k + 1..]) by {
      assert inputs[k..][0] == inputs[k] && inputs[k..][1..] == inputs[k + 1..];
    }
    Middle(Concat(inputs[..k]), inputs[k], Concat(inputs[k + 1..]));
    assert [] + Concat(inputs) == Concat(inputs);
  }

  /** A Write inside the payload changes its own bytes and nothing else. */
  lemma WriteInside(payload: seq<byte>, place: nat, input: seq<byte>, at: nat, size: nat)
    requires place + |input| <= |payload| && at + size <= |payload|
    ensures var p := Written(payload, place, Some(input)).0;
            && |p| == |payload| && ReadAt(p, place, |input|) == Some(input)
            && (at + size <= place || place + |input| <= at ==> ReadAt(p, at, size) == ReadAt(payload, at, size))
  {
    var p := Written(payload, place, Some(input)).0;
    assert p[place..place + |input|] == input;
    if at + size <= place || place + |input| <= at {
      assert p[at..at + size] == payload[at..at + size];
    }
  }

  /** A Write that is neither inside nor at the end changes nothing, and says so; at the end, null
      empties the event, and a Write of no bytes counts as one inside. */
  lemma WriteOutside(payload: seq<byte>, place: int, input: Option<seq<byte>>)
    requires place < 0 || |payload| < place || (place < |payload| && (input == None || |payload| < place + |input.value|))
    ensures Written(payload, place, input) == (payload, false)
    ensures Written(payload, |payload|, None) == ([], false) && Written(payload, |payload|, Some([])) == (payload, true)
  {
    assert payload[..|payload|] + [] + payload[|payload|..] == payload;
  }

  // ---------------------------------------------------------------- the byte form

  datatype Event = Event(kind: int32, payload: seq<byte>)

  const META := 8

  /** What WriteTo puts at the front of a buffer that is long enough. */
  function Encoded(e: Event): seq<byte>
    requires |e.payload| <= INT_MAX
  {
    IntBytes(e.kind) + IntBytes(|e.payload|) + e.payload
  }

  /** ReadFrom: the receiver after reading a buffer. The length that is checked first is the one
      the receiver had before. */
  function Received(e: Event, source: seq<byte>): Event
    requires |e.payload| + META <= INT_MAX
  {
    if |source| < |e.payload| + META then e
    else
      var kind, length := IntFrom(source[..4]), IntFrom(source[4..8]);
      if 0 < length < |source| - META then Event(kind, source[8..8 + length]) else Event(kind, [])
  }

  /** The byte form: the type in four bytes, lowest first, the length likewise, and the payload. */
  lemma ByteForm(e: Event)
    requires |e.payload| <= INT_MAX
    ensures |Encoded(e)| == META + |e.payload| && Encoded(e)[8..] == e.payload
    ensures ByteSum(Encoded(e)[..4]) == e.kind % INT_RANGE && ByteSum(Encoded(e)[4..8]) == |e.payload|
    ensures Encoded(e)[0] == e.kind % 256 && Encoded(e)[4] == |e.payload| % 256
  {
    assert e.kind % INT_RANGE % 256 == e.kind % 256 by {
      assert e.kind == INT_RANGE * (e.kind / INT_RANGE) + e.kind % INT_RANGE;
      assert INT_RANGE * (e.kind / INT_RANGE) == 256 * (0x100_0000 * (e.kind / INT_RANGE));
    }
    assert Encoded(e)[..4] == IntBytes(e.kind) && Encoded(e)[4..8] == IntBytes(|e.payload|);
  }

  /**
   * What any source whatever, truncated or not, leaves in a receiver: nothing new if the receiver
   * was too long; else the type, and no payload unless the length that is read is positive and
   * less than the number of bytes that follow, and then exactly so many of them.
   */
  lemma WhatIsReceived(receiver: Event, source: seq<byte>)
    requires |receiver.payload| + META <= INT_MAX
    ensures |source| < META + |receiver.payload| ==> Received(receiver, source) == receiver
    ensures META + |receiver.payload| <= |source| ==>
              var (e, length) := (Received(receiver, source), IntFrom(source[4..8]));
              && e.kind % INT_RANGE == ByteSum(source[..4])
              && |e.payload| == (if 0 < length && META + length < |source| then length else 0)
              && forall i :: 0 <= i < |e.payload| ==> e.payload[i] == source[META + i]
  {
  }

  lemma Decoding(e: Event, rest: seq<byte>)
    requires |e.payload| <= INT_MAX
    ensures var s := Encoded(e) + rest;
            IntFrom(s[..4]) == e.kind && IntFrom(s[4..8]) == |e.payload| && s[8..8 + |e.payload|] == e.payload
  {
    var s := Encoded(e) + rest;
    IntRoundTrip(e.kind);
    IntRoundTrip(|e.payload|);
    assert s[..4] == IntBytes(e.kind);
    assert s[4..8] == IntBytes(|e.payload|);
    assert s[8..8 + |e.payload|] == e.payload;
  }

  /**
   * A receiver whose own length fits the buffer gets the event back, every byte of it, if and only
   * if the payload is empty or the buffer is longer than the byte form. Otherwise, in a buffer of
   * exactly the right size, the payload is dropped and only the type arrives.
   */
  lemma RoundTripIff(e: Event, receiver: Event, rest: seq<byte>)
    requires |e.payload| + META <= INT_MAX && |receiver.payload| + META <= INT_MAX
    requires |receiver.payload| + META <= |Encoded(e) + rest|
    ensures Received(receiver, Encoded(e) + rest) == e <==> e.payload == [] || rest != []
    ensures e.payload != [] && rest == [] ==> Received(receiver, Encoded(e) + rest) == Event(e.kind, [])
  {
    Decoding(e, rest);
  }

  /** A receiver that held more than the buffer can hold ignores the buffer. */
  lemma LongReceiverIgnores(e: Event, receiver: Event, rest: seq<byte>)
    requires |e.payload| + META <= INT_MAX && |receiver.payload| + META <= INT_MAX
    requires |receiver.payload| + META > |Encoded(e) + rest|
    ensures Received(receiver, Encoded(e) + rest) == receiver
  {
  }

  // ---------------------------------------------------------------- the event itself

  /** The counted handle m_pData: on no counter, on one made for null, or on that of a buffer. */
  datatype Storage = NoCounter | OfNull | Buffer(data: array<byte>)

  method CopyInto(dest: array<byte>, at: nat, bytes: seq<byte>)
    requires at + |bytes| <= dest.Length
    modifies dest
    ensures dest[..] == old(dest[..at]) + bytes + old(dest[at + |bytes|..])
  {
    var i := 0;
    while i < |bytes|
      invariant 0 <= i <= |bytes|
      invariant forall k :: 0 <= k < dest.Length ==>
                  dest[k] == if at <= k < at + i then bytes[k - at] else old(dest[k])
    {
      dest[at + i] := bytes[i];
      i := i + 1;
    }
  }

  method NewBuffer(bytes: seq<byte>) returns (b: array<byte>)
    ensures fresh(b) && b[..] == bytes
  {
    b := new byte[|bytes|](i requires 0 <= i < |bytes| => bytes[i]);
  }

  class XLThreadEvent {
    var m_pData: Storage
    var m_iLength: int
    var m_iType: int32

    /** The buffer, if any, is as long as m_iLength says; an event of length 0 has none. */
    ghost predicate Valid()
      reads this
    {
      && m_iLength == (if m_pData.Buffer? then m_pData.data.Length else 0)
      && (m_pData.Buffer? ==> 0 < m_iLength)
      && m_iLength + META <= INT_MAX
    }

    ghost function Kind(): EH.Kind
      reads this
    {
      match m_pData case NoCounter => EH.NoCounter case OfNull => EH.OfNull case Buffer(_) => EH.Buffer
    }

    ghost function Buffers(): set<array<byte>>
      reads this
    {
      if m_pData.Buffer? then {m_pData.data} else {}
    }

    ghost function Payload(): seq<byte>
      reads this, Buffers()
    {
      if m_pData.Buffer? then m_pData.data[..] else []
    }

    ghost function Value(): Event
      reads this, Buffers()
    {
      Event(m_iType, Payload())
    }

    constructor ()
      ensures Valid() && Value() == Event(0, []) && Kind() == EH.NoCounter
    {
      m_pData, m_iLength, m_iType := NoCounter, 0, 0;
    }

    /** Room for `size` bytes, which are not set; no size leaves the event on a counter of null. */
    constructor OfSize(size: int)
      requires size + META <= INT_MAX
      ensures Valid() && m_iType == 0 && |Payload()| == (if 0 < size then size else 0)
      ensures Kind() == EH.AfterReadFrom(0 < size) && (m_pData.Buffer? ==> fresh(m_pData.data))
    {
      m_pData, m_iLength, m_iType := OfNull, 0, 0;
      new;
      if 0 < size {
        m_iLength := size;
        var buffer := new byte[size];
        m_pData := Buffer(buffer);
      }
    }

    constructor FromBytes(source: Option<seq<byte>>)
      requires source.Some? ==> |source.value| + META <= INT_MAX
      ensures Valid() && Value() == if source.Some? then Received(Event(0, []), source.value) else Event(0, [])
      ensures Kind() == if source.Some? && META <= |source.value| then EH.AfterReadFrom(Payload() != []) else EH.NoCounter
    {
      m_pData, m_iLength, m_iType := NoCounter, 0, 0;
      new;
      ReadFrom(source);
    }

    /** A copy shares the buffer. On a counter of null it would share what counts nobody. */
    constructor Copy(other: XLThreadEvent)
      requires other.Valid() && other.Kind() != EH.OfNull
      ensures Valid() && m_pData == other.m_pData && Value() == other.Value()
    {
      m_pData, m_iLength, m_iType := other.m_pData, other.m_iLength, other.m_iType;
    }

    method Assign(other: XLThreadEvent)
      requires other.Valid() && (this == other || other.Kind() != EH.OfNull)
      modifies this
      ensures Valid() && m_pData == old(other.m_pData) && Value() == old(other.Value())
    {
      if this == other { return; }
      m_iType := other.m_iType;
      m_pData := other.m_pData;
      m_iLength := other.m_iLength;
    }

    method Reset()
      modifies this`m_pData, this`m_iLength
      ensures Valid() && Payload() == [] && Kind() == EH.AfterReset(old(Kind()))
      ensures Kind() == if old(Kind()) == EH.NoCounter then EH.NoCounter else EH.OfNull
    {
      if m_pData.Buffer? {
        m_pData := OfNull;
      }
      m_iLength := 0;
    }

    /** A length that is not positive, like a null pointer, means no data. */
    method SetData(data: Option<seq<byte>>, length: int)
      requires data.Some? ==> length <= |data.value|
      requires length + META <= INT_MAX
      modifies this`m_pData, this`m_iLength
      ensures Valid() && Payload() == (if data.Some? && 0 < length then data.value[..length] else [])
      ensures m_pData.Buffer? ==> fresh(m_pData.data)
      ensures Kind() == EH.AfterSetData(old(Kind()), data.Some? && 0 < length)
      ensures Kind() == if data.Some? && 0 < length then EH.Buffer else if old(Kind()) == EH.NoCounter then EH.NoCounter else EH.OfNull
    {
      Reset();
      if data.Some? && 0 < length {
        m_iLength := length;
        var buffer := NewBuffer(data.value[..length]);
        assert buffer.Length == |buffer[..]|;
        m_pData := Buffer(buffer);
      }
    }

    method Read(place: int, size: nat) returns (output: Option<seq<byte>>)
      requires Valid() && 0 < size && place + size <= INT_MAX
      ensures output == ReadAt(Payload(), place, size)
      ensures output == None <==> place < 0 || |Payload()| < place + size
      ensures output.Some? ==> |output.value| == size && forall i :: 0 <= i < size ==> output.value[i] == Payload()[place + i]
    {
      if 0 <= place && place + size <= m_iLength {
        return Some(m_pData.data[place..place + size]);
      }
      return None;
    }

    /**
     * Inside the payload the shared buffer is overwritten in place, so every copy sees it; at its
     * end a new buffer takes the place of the old, which is left as it was for the copies.
     */
    method Write(place: int, input: Option<seq<byte>>) returns (ok: bool)
      requires Valid() && (input.Some? ==> place + |input.value| + META <= INT_MAX)
      modifies this`m_pData, this`m_iLength, Buffers()
      ensures Valid() && (Payload(), ok) == Written(old(Payload()), place, input)
      ensures ok || place != old(m_iLength) ==> m_pData == old(m_pData)
      ensures !ok && place == old(m_iLength) ==>
                && (m_pData.Buffer? ==> fresh(m_pData.data))
                && Kind() == EH.AfterSetData(old(Kind()), input.Some? && input.value != [])
      ensures !ok && old(m_pData).Buffer? ==> old(m_pData).data[..] == old(m_pData.data[..])
    {
      if 0 <= place && input.Some? && place + |input.value| <= m_iLength {
        ghost var was := Payload();
        if m_pData.Buffer? {
          CopyInto(m_pData.data, place, input.value);
        }
        assert Payload() == was[..place] + input.value + was[place + |input.value|..];
        return true;
      } else if place == m_iLength {
        assert input.Some? ==> input.value[..|input.value|] == input.value;
        AddData(input, if input.Some? then |input.value| else 0);
      }
      return false;
    }

    method AddData(data: Option<seq<byte>>, length: int)
      requires Valid() && (data.Some? ==> length <= |data.value|)
      requires length + META <= INT_MAX && m_iLength + length + META <= INT_MAX
      modifies this`m_pData, this`m_iLength
      ensures Valid() && Payload() == Added(old(Payload()), if data.Some? && 0 < length then Some(data.value[..length]) else None)
      ensures m_pData.Buffer? ==> fresh(m_pData.data)
      ensures Kind() == EH.AfterSetData(old(Kind()), data.Some? && 0 < length)
    {
      if m_pData.Buffer? && 0 < m_iLength && data.Some? && 0 < length {
        var beforelength := m_iLength;
        var newplace := NewBuffer(m_pData.data[..] + data.value[..length]);
        assert newplace.Length == |newplace[..]|;
        m_pData := Buffer(newplace);
        m_iLength := beforelength + length;
      } else {
        assert data.Some? && 0 < length ==> Payload() + data.value[..length] == data.value[..length];
        SetData(data, length);
      }
    }

    /** Nothing is written if the buffer is too short. */
    method WriteTo(destination: array<byte>)
      requires Valid() && destination !in Buffers()
      modifies destination
      ensures destination[..] == if destination.Length < |Encoded(Value())| then old(destination[..])
                                 else Encoded(Value()) + old(destination[|Encoded(Value())|..])
    {
      if m_iLength + META <= destination.Length {
        ghost var was := destination[..];
        CopyInto(destination, 0, IntBytes(m_iType));
        CopyInto(destination, 4, IntBytes(m_iLength));
        ghost var head := destination[..];
        assert head[..8] == IntBytes(m_iType) + IntBytes(m_iLength) && head[8..] == was[8..];
        if 0 < m_iLength {
          CopyInto(destination, 8, m_pData.data[..]);
        }
        assert destination[..] == head[..8] + Payload() + was[8 + |Payload()|..];
        assert head[..8] + Payload() == Encoded(Value());
      }
    }

    /** A message without payload leaves the event on a counter of null. */
    method ReadFrom(source: Option<seq<byte>>)
      requires Valid() && (source.Some? ==> |source.value| + META <= INT_MAX)
      modifies this
      ensures Valid() && Value() == if source.Some? then Received(old(Value()), source.value) else old(Value())
      ensures if source.Some? && |old(Payload())| + META <= |source.value|
              then Kind() == EH.AfterReadFrom(Payload() != []) && (m_pData.Buffer? ==> fresh(m_pData.data))
              else m_pData == old(m_pData)
    {
      if source.Some? && m_iLength + META <= |source.value| {
        var s := source.value;
        m_iType := IntFrom(s[..4]);
        var length := IntFrom(s[4..8]);
        if 0 < length < |s| - META {
          SetData(Some(s[8..8 + length]), length);
        } else {
          m_pData := OfNull;
          m_iLength := 0;
        }
      }
    }

    /** A buffer of exactly the size of the byte form: see RoundTripIff for what gets lost. */
    method ConvertIntoCharBuffer() returns (s: array<byte>)
      requires Valid()
      ensures fresh(s) && s[..] == Encoded(Value())
    {
      s := new byte[m_iLength + META](_ => 0);
      WriteTo(s);
    }
  }

  /** Two events on one buffer: the second sees a Write of the first inside the payload, and does
      not see one that appends. (Two events on one counter of null are not safe at all.) */
  method WriteBesideCopy(e: XLThreadEvent, copy: XLThreadEvent, place: int, input: Option<seq<byte>>) returns (ok: bool)
    requires e != copy && e.Valid() && copy.Valid() && copy.m_pData == e.m_pData && e.Kind() != EH.OfNull
    requires input.Some? ==> place + |input.value| + META <= INT_MAX
    modifies e, e.Buffers()
    ensures e.Valid() && copy.Valid()
    ensures ok ==> copy.Payload() == e.Payload() == Written(old(copy.Payload()), place, input).0
    ensures !ok ==> copy.Payload() == old(copy.Payload()) && copy.m_pData == old(copy.m_pData)
    ensures !ok && place == old(|e.Payload()|) && e.Payload() != [] ==> e.m_pData != copy.m_pData
  {
    ok := e.Write(place, input);
  }
}
