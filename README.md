# Voice broadcast admission rule

A model of the rule by which the Element Android client starts a voice
broadcast in a Matrix room, as its unit test for `StartVoiceBroadcastUseCase`
lays it out.

A room keeps an append-only log of state events. The current state of a
(type, state key) pair is the latest event written for it. A voice broadcast is
recorded per user: one voice-broadcast info state event whose state key is the
user id and whose content carries the broadcast state (STARTED, PAUSED,
RESUMED, STOPPED) and an optional relation to the broadcast's first event.

`execute` reads the room's current voice-broadcast info events with a non-empty
state key, i.e. one record per user. A new broadcast starts only when every
record is STOPPED, the caller's own included; a room with no record allows it.
Starting sends exactly one voice-broadcast info state event, keyed by the
caller's user id, in state STARTED and without a relation. A refused start
sends nothing.

Files:

- `voice_broadcast_model.dfy` (module `VoiceBroadcastModel`): the broadcast
  states, the info content, room state events.
- `room_state.dfy` (module `RoomState`): latest-write-wins lookup over the
  state log, the query for current voice-broadcast info events, and the `Room`
  class whose state log `SendVoiceBroadcastInfo` appends to.
- `start_voice_broadcast.dfy` (module `StartVoiceBroadcast`): the admission
  decision `CanStart` (no ongoing broadcast among the current records), the
  `Execute` method, and the lemmas about them.
- `start_voice_broadcast_test.dfy` (module `StartVoiceBroadcastUseCaseTest`):
  the test's table of cases, the proof that each expected outcome is the
  rule's decision, and `RunCases`, the test's loop over the table, proved to
  report no failing case.

The use case's own source file is not part of this model; the rule is taken
from its unit test. The test checks only two-record rooms (the caller and one
other user, all 16 pairs of states) and the empty room, and its fake state
service hands back the seeded events unchanged. Two parts of the model go
beyond what the test checks:

- the all-STOPPED rule is stated for any number of records
  (`CanStartIffAllStopped`), generalising the two-record table;
- the records are read as room state, the latest write per state key winning
  (`QueryBroadcastInfo`), rather than as a list handed back verbatim.

The two readings agree when the seeded records belong to different users
(`SeededRecordsAreCurrent`). The test's records belong to the caller and to
`"user_id"`. When the two ids are the same, the readings differ
(`SameUserRecordsCollapse`).

## Model

| member | source | states |
|---|---|---|
| `VoiceBroadcastModel.Values` | vector/src/test/java/im/vector/app/features/voicebroadcast/usecase/StartVoiceBroadcastUseCaseTest.kt:51-53 | the enumeration of states has four members, no two equal |
| `VoiceBroadcastModel.ValuesListsEveryState` | vector/src/test/java/im/vector/app/features/voicebroadcast/usecase/StartVoiceBroadcastUseCaseTest.kt:51-53 | every broadcast state appears in the enumeration the case table is built from |
| `RoomState.LatestContent` | vector/src/test/java/im/vector/app/features/voicebroadcast/usecase/StartVoiceBroadcastUseCaseTest.kt:106-116 | the current voice-broadcast content of a state key; an empty state key, which the `IsNotEmpty` filter excludes, never has one (which event it comes from is `LatestContentIsLastWrite`) |
| `RoomState.LatestContentIsLastWrite` | vector/src/test/java/im/vector/app/features/voicebroadcast/usecase/StartVoiceBroadcastUseCaseTest.kt:106-116 | a user's current voice-broadcast content is that of an event for the user with no later event for the user; there is none iff the log holds no event for the user |
| `RoomState.LatestContentAppend` | vector/src/test/java/im/vector/app/features/voicebroadcast/usecase/StartVoiceBroadcastUseCaseTest.kt:82-88 | sending a state event replaces the current state of its own state key and leaves every other key's current state as it was |
| `RoomState.QueryBroadcastInfo` | vector/src/test/java/im/vector/app/features/voicebroadcast/usecase/StartVoiceBroadcastUseCaseTest.kt:106-116 | the query returns an event iff it is a voice-broadcast info event with a non-empty state key that is the current state of that key, and never two events for one key |
| `RoomState.Room.constructor` | vector/src/test/java/im/vector/app/features/voicebroadcast/usecase/StartVoiceBroadcastUseCaseTest.kt:106-116 | a room is created holding exactly the given state events |
| `RoomState.Room.GetVoiceBroadcastInfoEvents` | vector/src/test/java/im/vector/app/features/voicebroadcast/usecase/StartVoiceBroadcastUseCaseTest.kt:116 | the room's query returns exactly the current voice-broadcast info events with a non-empty state key, one per key |
| `RoomState.Room.SendVoiceBroadcastInfo` | vector/src/test/java/im/vector/app/features/voicebroadcast/usecase/StartVoiceBroadcastUseCaseTest.kt:82-88 | sending appends exactly one voice-broadcast info event with the given state key and body to the room's state log |
| `StartVoiceBroadcast.IsOngoing` | vector/src/test/java/im/vector/app/features/voicebroadcast/usecase/StartVoiceBroadcastUseCaseTest.kt:56 | an event is ongoing iff it is a voice-broadcast info event in state STARTED, PAUSED or RESUMED, i.e. not STOPPED |
| `StartVoiceBroadcast.OngoingBroadcasts` | vector/src/test/java/im/vector/app/features/voicebroadcast/usecase/StartVoiceBroadcastUseCaseTest.kt:56 | the ongoing broadcasts are exactly the given voice-broadcast info events whose state is not STOPPED |
| `StartVoiceBroadcast.CanStart` | vector/src/test/java/im/vector/app/features/voicebroadcast/usecase/StartVoiceBroadcastUseCaseTest.kt:56-60 | the decision over the queried events: a start is allowed iff none of them is ongoing |
| `StartVoiceBroadcast.StartEvent` | vector/src/test/java/im/vector/app/features/voicebroadcast/usecase/StartVoiceBroadcastUseCaseTest.kt:82-91 | the event written on start is a voice-broadcast info event keyed by the caller, in state STARTED, without a relation, and ongoing |
| `StartVoiceBroadcast.CanStartIffAllStopped` | vector/src/test/java/im/vector/app/features/voicebroadcast/usecase/StartVoiceBroadcastUseCaseTest.kt:50-60 | a start is allowed iff every user's current voice-broadcast state in the room, the caller's included, is STOPPED |
| `StartVoiceBroadcast.NoBroadcastInfoAllowsStart` | vector/src/test/java/im/vector/app/features/voicebroadcast/usecase/StartVoiceBroadcastUseCaseTest.kt:60 | a room with no voice-broadcast info record allows a start |
| `StartVoiceBroadcast.OngoingRecordRefusesStart` | vector/src/test/java/im/vector/app/features/voicebroadcast/usecase/StartVoiceBroadcastUseCaseTest.kt:55-56 | any user's current non-STOPPED record, the caller's own or another user's, refuses a start |
| `StartVoiceBroadcast.StartLeavesOnlyCallerOngoing` | vector/src/test/java/im/vector/app/features/voicebroadcast/usecase/StartVoiceBroadcastUseCaseTest.kt:82-91 | after an allowed start the caller's STARTED record is the one ongoing broadcast in the room, so a second start is refused |
| `StartVoiceBroadcast.Execute` | vector/src/test/java/im/vector/app/features/voicebroadcast/usecase/StartVoiceBroadcastUseCaseTest.kt:71-104 | the broadcast starts iff the rule allows it; a start appends exactly one event, keyed by the caller, STARTED, with no relation; a refusal leaves the state log unchanged |
| `StartVoiceBroadcastUseCaseTest.PairCase` | vector/src/test/java/im/vector/app/features/voicebroadcast/usecase/StartVoiceBroadcastUseCaseTest.kt:54-57 | a pair case expects a start iff every one of its records is STOPPED; for two distinct non-empty user ids it holds one record per user |
| `StartVoiceBroadcastUseCaseTest.EventOf` | vector/src/test/java/im/vector/app/features/voicebroadcast/usecase/StartVoiceBroadcastUseCaseTest.kt:107-115 | a record's event is keyed by the record's user, matched by the non-empty query iff that id is non-empty, and ongoing iff the record is not STOPPED |
| `StartVoiceBroadcastUseCaseTest.EventsOf` | vector/src/test/java/im/vector/app/features/voicebroadcast/usecase/StartVoiceBroadcastUseCaseTest.kt:107-115 | the seeded events correspond one to one, in order, to the case's records |
| `StartVoiceBroadcastUseCaseTest.Cases` | vector/src/test/java/im/vector/app/features/voicebroadcast/usecase/StartVoiceBroadcastUseCaseTest.kt:50-60 | the table holds one case per pair of states plus a last case: no records, start expected |
| `StartVoiceBroadcastUseCaseTest.CasesCoverEveryPair` | vector/src/test/java/im/vector/app/features/voicebroadcast/usecase/StartVoiceBroadcastUseCaseTest.kt:51-58 | every pair (caller's state, other user's state) has its case in the table |
| `StartVoiceBroadcastUseCaseTest.SeededRecordsAreCurrent` | vector/src/test/java/im/vector/app/features/voicebroadcast/usecase/StartVoiceBroadcastUseCaseTest.kt:106-116 | seeding a room with one record per user makes the query return exactly those records' events |
| `StartVoiceBroadcastUseCaseTest.PairRule` | vector/src/test/java/im/vector/app/features/voicebroadcast/usecase/StartVoiceBroadcastUseCaseTest.kt:50-58 | for the caller's record and another user's record, a start is allowed iff both are STOPPED |
| `StartVoiceBroadcastUseCaseTest.CasesFollowRule` | vector/src/test/java/im/vector/app/features/voicebroadcast/usecase/StartVoiceBroadcastUseCaseTest.kt:50-60 | every case's expected outcome is the rule's decision for a room seeded with that case's records |
| `StartVoiceBroadcastUseCaseTest.SameUserRecordsCollapse` | vector/src/test/java/im/vector/app/features/voicebroadcast/usecase/StartVoiceBroadcastUseCaseTest.kt:55-56 | with the caller as the other user too, the (STARTED, STOPPED) records collapse to the later STOPPED one, so the model allows a start the table marks refused |
| `StartVoiceBroadcastUseCaseTest.RunCases` | vector/src/test/java/im/vector/app/features/voicebroadcast/usecase/StartVoiceBroadcastUseCaseTest.kt:62-104 | running every case against a fresh room passes: an allowed case sends one STARTED event keyed by the caller with no relation, a refused case sends nothing |

## Left out

- Resolving the room id through the session: the use case's own source is not part of this model, and the test always passes a known room id. `Execute` takes the room itself.
- RunCases: requires the caller's id to differ from `"user_id"`. The model reads seeded records as room state, so two records with the same state key collapse to the later one (`SameUserRecordsCollapse`). The test's fake hands both back, and the table's (STARTED, STOPPED) case would then be refused there but allowed here.
- The session's user id: the test's fake session supplies it and its value is not part of this model. It is a parameter (`myUserId`).
- Serialising content to and from Matrix `Content`: `toContent` and `toModel` belong to the external Matrix SDK. Info events carry their typed content, so a malformed body cannot occur in the model.
- The string values of the broadcast states: they belong to the app's own `VoiceBroadcastState` enum, whose source is not part of this model. The states are compared as values, never as strings.
- Network and send failures, and their propagation to the caller: the model's send always succeeds.
- Two callers racing to start broadcasts in the same room: the external event store orders writes; the model runs one call at a time.
- Mocking and coroutines in the test: the room is a plain state log.
- `SharedSecuredStorageKeyFragment.kt` and `DebugFeaturesSettingsActivity.kt`: Android UI glue over view models and a feature-flag store that are not part of this model.
