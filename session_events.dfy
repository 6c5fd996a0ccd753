/** The session-event drain of the bridge: poll until the runtime reports that no event is
    waiting, remember the state of every session-state change, and answer READY with
    xrBeginSession and STOPPING with xrEndSession (the session lifecycle of chapter 9 of
    the OpenXR 1.0 specification). This module states what one drain does; the bridge's
    `ProcessEvent` method is proved to do exactly that. */
module SessionEvents {

  import opened OpenXR
  import opened GlState

  /** What the event buffer holds after a poll: its structure type and the session state,
      which is only read when the type is XR_TYPE_EVENT_DATA_SESSION_STATE_CHANGED. */
  datatype EventData = EventData(structureType: int, state: SessionState)

  /** One xrPollEvent as the runtime answers it: the result, what it writes into the
      buffer, and the result of the begin or end call the event triggers, if it triggers one. */
  datatype Poll = Poll(result: XrResult, written: EventData, reactionResult: XrResult)

  /** The buffer starts as XR_TYPE_EVENT_DATA_BUFFER and the runtime overwrites it only
      when it reports success. */
  function BufferAfter(p: Poll): EventData
  {
    if Succeeded(p.result) then p.written else EventData(XR_TYPE_EVENT_DATA_BUFFER, XR_SESSION_STATE_UNKNOWN)
  }

  /** The event source eventually reports that no event is waiting. */
  predicate EndsUnavailable(polls: seq<Poll>)
  {
    exists k :: 0 <= k < |polls| && polls[k].result == XR_EVENT_UNAVAILABLE
  }

  /** The poll that ends the drain: the first one reporting XR_EVENT_UNAVAILABLE. */
  function FirstUnavailable(polls: seq<Poll>): (k: nat)
    requires EndsUnavailable(polls)
    ensures k < |polls| && polls[k].result == XR_EVENT_UNAVAILABLE
    ensures forall j :: 0 <= j < k ==> polls[j].result != XR_EVENT_UNAVAILABLE
    decreases |polls|
  {
    if polls[0].result == XR_EVENT_UNAVAILABLE then 0
    else
      assert EndsUnavailable(polls[1..]) by {
        var k :| 0 <= k < |polls| && polls[k].result == XR_EVENT_UNAVAILABLE;
        assert polls[1..][k - 1] == polls[k];
      }
      1 + FirstUnavailable(polls[1..])
  }

  /** The buffers the drain acts on, one per poll before the one that ends it. */
  function Delivered(polls: seq<Poll>): (events: seq<EventData>)
    requires EndsUnavailable(polls)
    ensures |events| == FirstUnavailable(polls)
    ensures forall i :: 0 <= i < |events| ==> events[i] == BufferAfter(polls[i])
  {
    var k := FirstUnavailable(polls);
    seq(k, i requires 0 <= i < k => BufferAfter(polls[i]))
  }

  predicate IsStateChange(e: EventData)
  {
    e.structureType == XR_TYPE_EVENT_DATA_SESSION_STATE_CHANGED
  }

  predicate IsReadyEvent(e: EventData) { IsStateChange(e) && e.state == XR_SESSION_STATE_READY }

  predicate IsStoppingEvent(e: EventData) { IsStateChange(e) && e.state == XR_SESSION_STATE_STOPPING }

  /** The calls the bridge makes in answer to one delivered event. */
  function Reaction(e: EventData): seq<Call>
  {
    if IsReadyEvent(e) then [BeginSession(XR_VIEW_CONFIGURATION_TYPE_PRIMARY_STEREO)]
    else if IsStoppingEvent(e) then [EndSession]
    else []
  }

  /** The session state after one delivered event. */
  function NextState(s: SessionState, e: EventData): SessionState
  {
    if IsStateChange(e) then e.state else s
  }

  /** The session state after a run of delivered events. */
  function DrainState(s: SessionState, events: seq<EventData>): (r: SessionState)
    ensures r == s || exists i :: 0 <= i < |events| && IsStateChange(events[i]) && events[i].state == r
    decreases |events|
  {
    if events == [] then s else NextState(DrainState(s, events[..|events| - 1]), events[|events| - 1])
  }

  /** The calls made while handling a run of delivered events: a poll, then the reaction. */
  function Handled(events: seq<EventData>): (calls: seq<Call>)
    ensures |calls| >= |events|
    decreases |events|
  {
    if events == [] then []
    else Handled(events[..|events| - 1]) + [PollEvent] + Reaction(events[|events| - 1])
  }

  /** The calls of a whole drain: the handled events and the final poll that finds none. */
  function DrainCalls(events: seq<EventData>): (calls: seq<Call>)
    ensures |calls| >= |events| + 1 && calls[|calls| - 1] == PollEvent
  {
    Handled(events) + [PollEvent]
  }

  predicate IsPollEvent(c: Call) { c.PollEvent? }
  predicate IsBeginSession(c: Call) { c.BeginSession? }
  predicate IsEndSession(c: Call) { c.EndSession? }

  /** The state after the drain is the state of the last session-state change. */
  lemma {:induction false} DrainStateIsLastChange(s: SessionState, events: seq<EventData>, j: nat)
    requires j < |events| && IsStateChange(events[j])
    requires forall k :: j < k < |events| ==> !IsStateChange(events[k])
    ensures DrainState(s, events) == events[j].state
    decreases |events|
  {
    var n := |events|;
    if j < n - 1 {
      var prefix := events[..n - 1];
      assert prefix[j] == events[j];
      assert forall k :: j < k < |prefix| ==> !IsStateChange(prefix[k]) by {
        forall k | j < k < |prefix| ensures !IsStateChange(prefix[k]) {
          assert prefix[k] == events[k];
        }
      }
      DrainStateIsLastChange(s, prefix, j);
    }
  }

  /** Without any session-state change the state stays what it was. */
  lemma {:induction false} DrainStateWithoutChange(s: SessionState, events: seq<EventData>)
    requires forall k :: 0 <= k < |events| ==> !IsStateChange(events[k])
    ensures DrainState(s, events) == s
    decreases |events|
  {
    if events != [] {
      var prefix := events[..|events| - 1];
      assert forall k :: 0 <= k < |prefix| ==> !IsStateChange(prefix[k]) by {
        forall k | 0 <= k < |prefix| ensures !IsStateChange(prefix[k]) {
          assert prefix[k] == events[k];
        }
      }
      DrainStateWithoutChange(s, prefix);
    }
  }

  /** Calls for earlier events come before calls for later ones. */
  lemma {:induction false} HandledAppend(a: seq<EventData>, b: seq<EventData>)
    ensures Handled(a + b) == Handled(a) + Handled(b)
    decreases |b|
  {
    if b == [] {
      assert a + b == a;
    } else {
      var b' := b[..|b| - 1];
      assert (a + b)[..|a + b| - 1] == a + b';
      assert (a + b)[|a + b| - 1] == b[|b| - 1];
      HandledAppend(a, b');
    }
  }

  /** The calls for one event: one poll, one begin for READY, one end for STOPPING. */
  lemma EventCallCounts(e: EventData)
    ensures Count([PollEvent] + Reaction(e), IsBeginSession) == Count([e], IsReadyEvent)
    ensures Count([PollEvent] + Reaction(e), IsEndSession) == Count([e], IsStoppingEvent)
    ensures Count([PollEvent] + Reaction(e), IsPollEvent) == 1
  {
    var calls := [PollEvent] + Reaction(e);
    assert calls[1..] == Reaction(e);
    assert [e][1..] == [];
    if Reaction(e) != [] {
      assert Reaction(e)[1..] == [];
    }
  }

  /** Each READY event issues one xrBeginSession, each STOPPING event one xrEndSession,
      each delivered event one poll, and nothing else is called. */
  lemma {:induction false} HandledCounts(events: seq<EventData>)
    ensures Count(Handled(events), IsBeginSession) == Count(events, IsReadyEvent)
    ensures Count(Handled(events), IsEndSession) == Count(events, IsStoppingEvent)
    ensures Count(Handled(events), IsPollEvent) == |events|
    ensures forall c :: c in Handled(events) ==>
      c == PollEvent || c == BeginSession(XR_VIEW_CONFIGURATION_TYPE_PRIMARY_STEREO) || c == EndSession
    decreases |events|
  {
    if events != [] {
      var prefix, e := events[..|events| - 1], events[|events| - 1];
      var before, step := Handled(prefix), [PollEvent] + Reaction(e);
      HandledCounts(prefix);
      AppendTwice(before, [PollEvent], Reaction(e));
      assert Handled(events) == before + step;
      EventCallCounts(e);
      CountAppend(before, step, IsBeginSession);
      CountAppend(before, step, IsEndSession);
      CountAppend(before, step, IsPollEvent);
      assert events == prefix + [e];
      CountAppend(prefix, [e], IsReadyEvent);
      CountAppend(prefix, [e], IsStoppingEvent);
    }
  }

  /** A drain polls once per delivered event and once more for the poll that finds none. */
  lemma DrainPollCount(polls: seq<Poll>)
    requires EndsUnavailable(polls)
    ensures Count(DrainCalls(Delivered(polls)), IsPollEvent) == FirstUnavailable(polls) + 1
  {
    var events := Delivered(polls);
    HandledCounts(events);
    CountAppend(Handled(events), [PollEvent], IsPollEvent);
  }

  /** An event of any other type changes neither the state nor the calls beyond its poll. */
  lemma IgnoredEventChangesNothing(s: SessionState, events: seq<EventData>, e: EventData)
    requires !IsStateChange(e)
    ensures DrainState(s, events + [e]) == DrainState(s, events)
    ensures Handled(events + [e]) == Handled(events) + [PollEvent]
  {
    assert (events + [e])[..|events|] == events;
  }

  /** Handling one more event: its poll, then its reaction, and the state it leads to. */
  lemma DrainStep(s: SessionState, events: seq<EventData>, i: nat)
    requires i < |events|
    ensures DrainState(s, events[..i + 1]) == NextState(DrainState(s, events[..i]), events[i])
    ensures Handled(events[..i + 1]) == Handled(events[..i]) + [PollEvent] + Reaction(events[i])
  {
    assert events[..i + 1][..i] == events[..i];
  }
}
