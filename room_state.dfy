/** A room's state as the voice-broadcast use case sees it: an append-only log
    of state events in which the latest event for a (type, state key) pair is
    the current state, the query for the current voice-broadcast info events
    with a non-empty state key, and the write that appends one state event. */
module RoomState {
  import opened VoiceBroadcastModel

  /** True of an event that the query for voice-broadcast info events with a
      non-empty state key can return, and that is the state of user `key`. */
  predicate SetsBroadcastOf(e: Event, key: UserId)
  {
    e.VoiceBroadcastInfoEvent? && e.stateKey != "" && e.stateKey == key
  }

  /** No two events of the sequence belong to the same state key. */
  predicate DistinctKeys(events: seq<Event>)
  {
    forall i, j :: 0 <= i < j < |events| ==> events[i].stateKey != events[j].stateKey
  }

  /** The content of the latest voice-broadcast info event for state key `key`
      in the log (oldest event first), if there is one. Which event that is,
      and when there is none, is stated by `LatestContentIsLastWrite`. */
  function LatestContent(log: seq<Event>, key: UserId): (c: Option<VoiceBroadcastInfoContent>)
    ensures key == "" ==> c == None
  {
    if log == [] then None
    else match LatestContent(log[1..], key)
      case Some(c) => Some(c)
      case None => if SetsBroadcastOf(log[0], key) then Some(log[0].content) else None
  }

  /** The latest write for a state key wins: the content found is that of an
      event for `key` with no later event for `key`, and nothing is found only
      when the log holds no event for `key`. */
  lemma {:induction false} LatestContentIsLastWrite(log: seq<Event>, key: UserId)
    ensures LatestContent(log, key) == None <==>
      forall i :: 0 <= i < |log| ==> !SetsBroadcastOf(log[i], key)
    ensures LatestContent(log, key).Some? ==>
      exists i :: 0 <= i < |log| && SetsBroadcastOf(log[i], key) &&
        log[i].content == LatestContent(log, key).value &&
        forall j :: i < j < |log| ==> !SetsBroadcastOf(log[j], key)
  {
    if log != [] {
      var rest := log[1..];
      LatestContentIsLastWrite(rest, key);
      assert forall i :: 0 < i < |log| ==> log[i] == rest[i - 1];
      match LatestContent(rest, key)
      case Some(c) =>
        var i :| 0 <= i < |rest| && SetsBroadcastOf(rest[i], key) && rest[i].content == c &&
          forall j :: i < j < |rest| ==> !SetsBroadcastOf(rest[j], key);
        assert log[i + 1] == rest[i];
      case None =>
        if SetsBroadcastOf(log[0], key) {
          assert forall j :: 0 < j < |log| ==> !SetsBroadcastOf(log[j], key);
        }
    }
  }

  /** Appending one event changes the current state of its own state key only. */
  lemma {:induction false} LatestContentAppend(log: seq<Event>, e: Event, key: UserId)
    ensures LatestContent(log + [e], key) ==
      if SetsBroadcastOf(e, key) then Some(e.content) else LatestContent(log, key)
  {
    if log == [] {
      assert [e][1..] == [];
    } else {
      assert (log + [e])[1..] == log[1..] + [e];
      LatestContentAppend(log[1..], e, key);
    }
  }

  /** The current voice-broadcast info events with a non-empty state key: the
      room's state-event query for that event type with the `IsNotEmpty`
      state-key filter. Each state key yields one event, its latest. */
  function QueryBroadcastInfo(log: seq<Event>): (events: seq<Event>)
    ensures forall e :: e in events <==>
      e.VoiceBroadcastInfoEvent? && e.stateKey != "" && LatestContent(log, e.stateKey) == Some(e.content)
    ensures DistinctKeys(events)
  {
    if log == [] then []
    else
      var rest := QueryBroadcastInfo(log[1..]);
      if SetsBroadcastOf(log[0], log[0].stateKey) && LatestContent(log[1..], log[0].stateKey) == None
      then [log[0]] + rest
      else rest
  }

  /** A room whose state the use case reads and writes. */
  class Room {
    const roomId: string
    /** The room's state events, oldest first. */
    var stateEvents: seq<Event>

    constructor (roomId: string, stateEvents: seq<Event>)
      ensures this.roomId == roomId && this.stateEvents == stateEvents
    {
      this.roomId := roomId;
      this.stateEvents := stateEvents;
    }

    /** The current voice-broadcast info events with a non-empty state key. */
    function GetVoiceBroadcastInfoEvents(): (events: seq<Event>)
      reads this
      ensures forall e :: e in events <==>
        e.VoiceBroadcastInfoEvent? && e.stateKey != "" && LatestContent(stateEvents, e.stateKey) == Some(e.content)
      ensures DistinctKeys(events)
    {
      QueryBroadcastInfo(stateEvents)
    }

    /** Sends one voice-broadcast info state event for state key `stateKey`. */
    method SendVoiceBroadcastInfo(stateKey: UserId, body: VoiceBroadcastInfoContent)
      modifies this
      ensures stateEvents == old(stateEvents) + [VoiceBroadcastInfoEvent(stateKey, body)]
    {
      stateEvents := stateEvents + [VoiceBroadcastInfoEvent(stateKey, body)];
    }
  }
}
