/** The table of cases by which the start-voice-broadcast use case is
    exercised: every pair of states for the caller's record and another user's
    record, plus a room without records. The table's expected outcomes are
    proved to agree with the admission rule, and running every case against a
    room seeded with the case's records is proved to pass. */
module StartVoiceBroadcastUseCaseTest {
  import opened VoiceBroadcastModel
  import opened RoomState
  import opened StartVoiceBroadcast

  const A_ROOM_ID: string := "room_id"
  const A_USER_ID: UserId := "user_id"

  /** One user's voice-broadcast record in a case. */
  datatype VoiceBroadcast = VoiceBroadcast(userId: UserId, state: VoiceBroadcastState)

  /** The records a room starts with and whether a broadcast may start there. */
  datatype Case = Case(voiceBroadcasts: seq<VoiceBroadcast>, canStartVoiceBroadcast: bool)

  /** The case for the caller's record in state `first` and another user's
      record in state `second`. */
  function PairCase(myUserId: UserId, otherUserId: UserId,
                    first: VoiceBroadcastState, second: VoiceBroadcastState): (c: Case)
    ensures c.canStartVoiceBroadcast <==>
      forall i :: 0 <= i < |c.voiceBroadcasts| ==> c.voiceBroadcasts[i].state == Stopped
    ensures myUserId != "" && otherUserId != "" && myUserId != otherUserId ==>
      OneRecordPerUser(c.voiceBroadcasts)
  {
    var vbs := [VoiceBroadcast(myUserId, first), VoiceBroadcast(otherUserId, second)];
    assert vbs[0].state == first && vbs[1].state == second;
    Case(vbs, first == Stopped && second == Stopped)
  }

  /** Every pair of states, the caller's state varying slowest, then the
      empty room. */
  function Cases(myUserId: UserId, otherUserId: UserId): (cases: seq<Case>)
    ensures |cases| == |Values()| * |Values()| + 1
    ensures cases[|cases| - 1] == Case([], true)
  {
    seq(16, k requires 0 <= k < 16 => PairCase(myUserId, otherUserId, Values()[k / 4], Values()[k % 4]))
      + [Case([], true)]
  }

  /** The state event that stands for one record. */
  function EventOf(vb: VoiceBroadcast): (e: Event)
    ensures e.stateKey == vb.userId
    ensures SetsBroadcastOf(e, vb.userId) <==> vb.userId != ""
    ensures IsOngoing(e) <==> vb.state != Stopped
  {
    VoiceBroadcastInfoEvent(vb.userId, VoiceBroadcastInfoContent(vb.state, None))
  }

  /** The state events that stand for a case's records, in order. */
  function EventsOf(vbs: seq<VoiceBroadcast>): (events: seq<Event>)
    ensures |events| == |vbs|
    ensures forall i :: 0 <= i < |vbs| ==> events[i] == EventOf(vbs[i])
  {
    if vbs == [] then [] else [EventOf(vbs[0])] + EventsOf(vbs[1..])
  }

  /** The records belong to different users, none with an empty user id. */
  predicate OneRecordPerUser(vbs: seq<VoiceBroadcast>)
  {
    (forall i :: 0 <= i < |vbs| ==> vbs[i].userId != "") &&
    (forall i, j :: 0 <= i < j < |vbs| ==> vbs[i].userId != vbs[j].userId)
  }

  /** A state key with no record among `vbs` has no current state in their events. */
  lemma AbsentUserHasNoState(vbs: seq<VoiceBroadcast>, key: UserId)
    requires forall i :: 0 <= i < |vbs| ==> vbs[i].userId != key
    ensures LatestContent(EventsOf(vbs), key) == None
  {
  }

  /** Seeding a room with one record per user makes the query for current
      voice-broadcast info events return exactly those records' events. */
  lemma {:induction false} SeededRecordsAreCurrent(vbs: seq<VoiceBroadcast>)
    requires OneRecordPerUser(vbs)
    ensures QueryBroadcastInfo(EventsOf(vbs)) == EventsOf(vbs)
  {
    if vbs != [] {
      var rest := vbs[1..];
      assert OneRecordPerUser(rest) by {
        forall i, j | 0 <= i < j < |rest| ensures rest[i].userId != rest[j].userId {
          assert rest[i] == vbs[i + 1] && rest[j] == vbs[j + 1];
        }
      }
      SeededRecordsAreCurrent(rest);
      assert forall i :: 0 <= i < |rest| ==> rest[i].userId != vbs[0].userId by {
        forall i | 0 <= i < |rest| ensures rest[i].userId != vbs[0].userId {
          assert rest[i] == vbs[i + 1];
        }
      }
      AbsentUserHasNoState(rest, vbs[0].userId);
      assert EventsOf(vbs)[1..] == EventsOf(rest);
    }
  }

  /** For every pair of states of the caller's record and another user's
      record, a broadcast may start iff both are STOPPED. */
  lemma PairRule(myUserId: UserId, otherUserId: UserId,
                 first: VoiceBroadcastState, second: VoiceBroadcastState)
    requires myUserId != "" && otherUserId != "" && myUserId != otherUserId
    ensures CanStart(QueryBroadcastInfo(EventsOf(PairCase(myUserId, otherUserId, first, second).voiceBroadcasts)))
      <==> first == Stopped && second == Stopped
  {
  }

  /** Every expected outcome in the table is what the admission rule decides
      for a room seeded with that case's records. */
  lemma CasesFollowRule(myUserId: UserId, otherUserId: UserId)
    requires myUserId != "" && otherUserId != "" && myUserId != otherUserId
    ensures forall c :: c in Cases(myUserId, otherUserId) ==>
      OneRecordPerUser(c.voiceBroadcasts) &&
      c.canStartVoiceBroadcast == CanStart(QueryBroadcastInfo(EventsOf(c.voiceBroadcasts)))
  {
  }

  /** The table holds a case for every pair of states. */
  lemma CasesCoverEveryPair(myUserId: UserId, otherUserId: UserId,
                            first: VoiceBroadcastState, second: VoiceBroadcastState)
    ensures PairCase(myUserId, otherUserId, first, second) in Cases(myUserId, otherUserId)
  {
    ValuesListsEveryState(first);
    ValuesListsEveryState(second);
    var i :| 0 <= i < 4 && Values()[i] == first;
    var j :| 0 <= j < 4 && Values()[j] == second;
    assert Cases(myUserId, otherUserId)[4 * i + j] == PairCase(myUserId, otherUserId, first, second);
  }

  /** Two seeded records for one state key collapse to the later one: with
      the caller's record STARTED and a later STOPPED record for the same user,
      the room's current state is STOPPED and a start is allowed, although the
      table marks the (STARTED, STOPPED) pair refused. This is why the table is
      run with a caller different from the other user. */
  lemma {:induction false} SameUserRecordsCollapse(userId: UserId)
    requires userId != ""
    ensures QueryBroadcastInfo(EventsOf(PairCase(userId, userId, Started, Stopped).voiceBroadcasts))
      == [EventOf(VoiceBroadcast(userId, Stopped))]
    ensures CanStart(QueryBroadcastInfo(EventsOf(PairCase(userId, userId, Started, Stopped).voiceBroadcasts)))
    ensures !PairCase(userId, userId, Started, Stopped).canStartVoiceBroadcast
  {
    var log := EventsOf(PairCase(userId, userId, Started, Stopped).voiceBroadcasts);
    assert log == [EventOf(VoiceBroadcast(userId, Started)), EventOf(VoiceBroadcast(userId, Stopped))];
    assert log[1..][1..] == [];
    assert LatestContent(log[1..], userId) == Some(VoiceBroadcastInfoContent(Stopped, None));
    assert QueryBroadcastInfo(log[1..]) == [log[1]];
  }

  /** Runs every case against a room seeded with its records: a case that may
      start must send exactly one voice-broadcast info event, keyed by the
      caller, in state STARTED and without a relation; any other case must
      send nothing. Returns the cases that do not behave so. */
  method RunCases(myUserId: UserId) returns (failures: seq<Case>)
    requires myUserId != "" && myUserId != A_USER_ID
    ensures failures == []
  {
    var cases := Cases(myUserId, A_USER_ID);
    CasesFollowRule(myUserId, A_USER_ID);
    failures := [];
    for k := 0 to |cases|
      invariant failures == []
    {
      var c := cases[k];
      var before := EventsOf(c.voiceBroadcasts);
      SeededRecordsAreCurrent(c.voiceBroadcasts);
      var room := new Room(A_ROOM_ID, before);
      var _ := Execute(room, myUserId);
      var sent := room.stateEvents[|before|..];
      var passed :=
        if c.canStartVoiceBroadcast then
          |sent| == 1 && sent[0].VoiceBroadcastInfoEvent? && sent[0].stateKey == myUserId &&
          sent[0].content.voiceBroadcastState == Started && sent[0].content.relatesTo == None
        else
          sent == [];
      if !passed {
        failures := failures + [c];
      }
    }
  }
}
