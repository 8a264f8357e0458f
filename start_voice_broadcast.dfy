/** The admission rule for starting a voice broadcast in a room: a new
    broadcast starts only when every user's current voice-broadcast info state
    in the room is STOPPED, and starting writes one STARTED state event keyed
    by the caller's user id. */
module StartVoiceBroadcast {
  import opened VoiceBroadcastModel
  import opened RoomState

  /** True of a voice-broadcast info event whose broadcast is not stopped. */
  predicate IsOngoing(e: Event)
    ensures IsOngoing(e) <==>
      e.VoiceBroadcastInfoEvent? && e.content.voiceBroadcastState in {Started, Paused, Resumed}
  {
    e.VoiceBroadcastInfoEvent? && e.content.voiceBroadcastState != Stopped
  }

  /** The events whose broadcast is still going on, in their original order. */
  function OngoingBroadcasts(events: seq<Event>): (ongoing: seq<Event>)
    ensures forall e :: e in ongoing <==> e in events && IsOngoing(e)
  {
    if events == [] then []
    else if IsOngoing(events[0]) then [events[0]] + OngoingBroadcasts(events[1..])
    else OngoingBroadcasts(events[1..])
  }

  /** The state keys of a sequence of events. */
  function KeysOf(events: seq<Event>): set<UserId>
  {
    set i | 0 <= i < |events| :: events[i].stateKey
  }

  /** A sequence with distinct state keys has as many keys as events. */
  lemma {:induction false} DistinctKeysCount(events: seq<Event>)
    requires DistinctKeys(events)
    ensures |KeysOf(events)| == |events|
  {
    if events != [] {
      var init := events[..|events| - 1];
      var last := events[|events| - 1];
      assert DistinctKeys(init) by {
        forall i, j | 0 <= i < j < |init| ensures init[i].stateKey != init[j].stateKey {
          assert init[i] == events[i] && init[j] == events[j];
        }
      }
      DistinctKeysCount(init);
      assert KeysOf(events) == KeysOf(init) + {last.stateKey} by {
        forall k | k in KeysOf(events) ensures k in KeysOf(init) + {last.stateKey} {
          var i :| 0 <= i < |events| && events[i].stateKey == k;
          if i < |init| {
            assert init[i] == events[i];
          }
        }
        forall k | k in KeysOf(init) ensures k in KeysOf(events) {
          var i :| 0 <= i < |init| && init[i].stateKey == k;
          assert events[i] == init[i];
        }
      }
      assert last.stateKey !in KeysOf(init) by {
        forall i | 0 <= i < |init| ensures init[i].stateKey != last.stateKey {
          assert init[i] == events[i];
        }
      }
    }
  }

  /** Filtering keeps one event per state key. */
  lemma {:induction false} OngoingKeepsKeysDistinct(events: seq<Event>)
    requires DistinctKeys(events)
    ensures DistinctKeys(OngoingBroadcasts(events))
  {
    if events != [] {
      var tail := events[1..];
      assert DistinctKeys(tail) by {
        forall i, j | 0 <= i < j < |tail| ensures tail[i].stateKey != tail[j].stateKey {
          assert tail[i] == events[i + 1] && tail[j] == events[j + 1];
        }
      }
      OngoingKeepsKeysDistinct(tail);
      var rest := OngoingBroadcasts(tail);
      if IsOngoing(events[0]) {
        forall j | 0 <= j < |rest| ensures events[0].stateKey != rest[j].stateKey {
          assert rest[j] in tail;
          var k :| 0 <= k < |tail| && tail[k] == rest[j];
          assert events[k + 1] == rest[j];
        }
        var ongoing := [events[0]] + rest;
        forall i, j | 0 <= i < j < |ongoing| ensures ongoing[i].stateKey != ongoing[j].stateKey {
          assert ongoing[j] == rest[j - 1];
          if i > 0 {
            assert ongoing[i] == rest[i - 1];
          }
        }
      }
    }
  }

  /** The decision: no current voice-broadcast info event is ongoing. */
  predicate CanStart(events: seq<Event>)
    ensures CanStart(events) <==> forall i :: 0 <= i < |events| ==> !IsOngoing(events[i])
  {
    var ongoing := OngoingBroadcasts(events);
    assert ongoing != [] ==> ongoing[0] in events;
    ongoing == []
  }

  /** The state event written when a broadcast starts. */
  function StartEvent(myUserId: UserId): (e: Event)
    ensures e.VoiceBroadcastInfoEvent? && e.stateKey == myUserId
    ensures e.content.voiceBroadcastState == Started && e.content.relatesTo.None?
    ensures IsOngoing(e) && SetsBroadcastOf(e, myUserId) == (myUserId != "")
  {
    VoiceBroadcastInfoEvent(myUserId, VoiceBroadcastInfoContent(Started, None))
  }

  /** A broadcast may start in a room iff the current voice-broadcast state of
      every user (the caller included) is STOPPED; a room without any
      voice-broadcast info state event always allows it. */
  lemma CanStartIffAllStopped(log: seq<Event>)
    ensures CanStart(QueryBroadcastInfo(log)) <==>
      forall key :: LatestContent(log, key).Some? && key != "" ==>
        LatestContent(log, key).value.voiceBroadcastState == Stopped
  {
    var events := QueryBroadcastInfo(log);
    if !CanStart(events) {
      var e := OngoingBroadcasts(events)[0];
      assert LatestContent(log, e.stateKey) == Some(e.content);
    } else {
      forall key | LatestContent(log, key).Some? && key != ""
        ensures LatestContent(log, key).value.voiceBroadcastState == Stopped
      {
        var e := VoiceBroadcastInfoEvent(key, LatestContent(log, key).value);
        assert e in events;
      }
    }
  }

  /** A log without any voice-broadcast info event with a non-empty state key
      allows a start. */
  lemma NoBroadcastInfoAllowsStart(log: seq<Event>)
    requires forall i :: 0 <= i < |log| ==> !SetsBroadcastOf(log[i], log[i].stateKey)
    ensures CanStart(QueryBroadcastInfo(log))
  {
  }

  /** Once a broadcast has started, the caller's STARTED record is the one
      ongoing broadcast, so a further start in the same room is refused until
      it is stopped. */
  lemma StartLeavesOnlyCallerOngoing(log: seq<Event>, myUserId: UserId)
    requires myUserId != ""
    requires CanStart(QueryBroadcastInfo(log))
    ensures OngoingBroadcasts(QueryBroadcastInfo(log + [StartEvent(myUserId)])) == [StartEvent(myUserId)]
    ensures !CanStart(QueryBroadcastInfo(log + [StartEvent(myUserId)]))
  {
    var log' := log + [StartEvent(myUserId)];
    var ongoing := OngoingBroadcasts(QueryBroadcastInfo(log'));
    CanStartIffAllStopped(log);
    OngoingKeepsKeysDistinct(QueryBroadcastInfo(log'));
    LatestContentAppend(log, StartEvent(myUserId), myUserId);
    assert StartEvent(myUserId) in ongoing;
    forall e | e in ongoing ensures e == StartEvent(myUserId) {
      LatestContentAppend(log, StartEvent(myUserId), e.stateKey);
    }
    assert KeysOf(ongoing) == {myUserId};
    DistinctKeysCount(ongoing);
    assert ongoing[0] in ongoing;
  }

  /** Any user's current non-STOPPED record refuses a start, the caller's own
      record included. */
  lemma OngoingRecordRefusesStart(log: seq<Event>, key: UserId)
    requires key != ""
    requires LatestContent(log, key).Some?
    requires LatestContent(log, key).value.voiceBroadcastState != Stopped
    ensures !CanStart(QueryBroadcastInfo(log))
  {
  }

  /** Starts a voice broadcast in `room` for the user `myUserId` when no
      broadcast is going on there; otherwise leaves the room unchanged. */
  method Execute(room: Room, myUserId: UserId) returns (started: bool)
    modifies room
    ensures started == CanStart(QueryBroadcastInfo(old(room.stateEvents)))
    ensures room.stateEvents ==
      if started then old(room.stateEvents) + [StartEvent(myUserId)] else old(room.stateEvents)
  {
    var events := room.GetVoiceBroadcastInfoEvents();
    var ongoing := OngoingBroadcasts(events);
    if ongoing == [] {
      room.SendVoiceBroadcastInfo(myUserId, VoiceBroadcastInfoContent(Started, None));
      started := true;
    } else {
      started := false;
    }
  }
}
