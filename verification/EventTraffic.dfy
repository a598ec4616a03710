/**
 * What the library's threads make of events: the event XLServingThread sends to one client, and
 * what the listening thread passes on of what it receives.
 */
module EventTraffic {
  import opened Basics
  import opened ThreadEvent
  import EH = EventHandles

  const USR_MSG: int32 := 18
  const MAX_MESS_LENGTH := 50

  /**
   * XLServingThread::Send up to the posting of the event. A null message wipes the client's id
   * that was written first and leaves the event on a counter of null; what posting it then does is
   * EventHandles.WriteNothingThenPostFails.
   */
  method Send(id: int32, msg: Option<seq<byte>>) returns (e: XLThreadEvent)
    requires msg.Some? ==> 4 + |msg.value| + META <= INT_MAX
    ensures fresh(e) && e.Valid() && e.m_iType == USR_MSG
    ensures msg.Some? ==> e.Payload() == IntBytes(id) + msg.value && e.Kind() == EH.Buffer
    ensures msg == None ==> e.Payload() == [] && e.Kind() == EH.OfNull
  {
    e := new XLThreadEvent();
    var _ := e.Write(0, Some(IntBytes(id)));
    assert e.Payload() == IntBytes(id);
    var _ := e.Write(4, msg);
    e.m_iType := USR_MSG;
  }

  /**
   * XLListeningThread::RunProgram: its event is made as long as a message, so no message can ever
   * hold one, and what is passed on is the event as it was made, whatever is received.
   */
  method RunProgram(messages: seq<seq<byte>>) returns (made: Event, heard: seq<Event>)
    requires forall i :: 0 <= i < |messages| ==> |messages[i]| == MAX_MESS_LENGTH
    ensures made.kind == 0 && |made.payload| == MAX_MESS_LENGTH
    ensures |heard| == |messages| && forall i :: 0 <= i < |heard| ==> heard[i] == made
  {
    var m_Event := new XLThreadEvent.OfSize(MAX_MESS_LENGTH);
    made := Event(m_Event.m_iType, m_Event.m_pData.data[..]);
    heard := [];
    for i := 0 to |messages|
      invariant m_Event.Valid() && m_Event.Value() == made && m_Event.m_pData.Buffer?
      invariant |heard| == i && forall j :: 0 <= j < i ==> heard[j] == made
      invariant fresh(m_Event)
    {
      m_Event.ReadFrom(Some(messages[i]));
      heard := heard + [Event(m_Event.m_iType, m_Event.m_pData.data[..])];
    }
  }
}
