/** Values shared by the voice-broadcast use case and the room state it reads:
    the broadcast lifecycle states, the content of a voice-broadcast info state
    event, and the room state events themselves. */
module VoiceBroadcastModel {

  datatype Option<+T> = None | Some(value: T)

  /** A Matrix user id; it is also the state key of that user's
      voice-broadcast info event. */
  type UserId = string

  /** The lifecycle of one user's voice broadcast in one room. */
  datatype VoiceBroadcastState = Started | Paused | Resumed | Stopped

  /** The members of the enumeration in declaration order, as `values()` lists them. */
  function Values(): (vs: seq<VoiceBroadcastState>)
    ensures |vs| == 4
    ensures forall i, j :: 0 <= i < j < |vs| ==> vs[i] != vs[j]
  {
    [Started, Paused, Resumed, Stopped]
  }

  /** Enumerating the states misses none of them. */
  lemma ValuesListsEveryState(s: VoiceBroadcastState)
    ensures s in Values()
  {
  }

  /** A reference from a voice-broadcast info event to the event that began the broadcast. */
  datatype RelationContent = Reference(eventId: string)

  /** The body of a voice-broadcast info state event. */
  datatype VoiceBroadcastInfoContent = VoiceBroadcastInfoContent(
    voiceBroadcastState: VoiceBroadcastState,
    relatesTo: Option<RelationContent>)

  /** A room state event. Voice-broadcast info events carry their typed
      content; every other state type is kept only by its type and state key.
      The `eventType` of an `OtherStateEvent` is never the voice-broadcast info
      type: an event of that type is always a `VoiceBroadcastInfoEvent`. */
  datatype Event =
    | VoiceBroadcastInfoEvent(stateKey: string, content: VoiceBroadcastInfoContent)
    | OtherStateEvent(eventType: string, stateKey: string)
}
