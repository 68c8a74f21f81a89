# Commonality walkie-talkie translation core in Dafny

Commonality is a chat app in which two people who speak different languages
talk in turns. While one of them holds the floor, the other hears a
translation. This project models and proves the core of that system:

- **Signal codec** (`signals.dfy`, module `Signals`). The JSON control
  signals exchanged on the `walkie-talkie` data channel: the enum and its
  lookup table, `encode_signal` with its snake_case to camelCase key map, and
  `decode_signal`. A JSON object is a `map<string, string>`, and keyword
  arguments are a sequence of pairs in call order.
- **Client turn state** (`walkie_reducer.dfy`, `walkie_hook.dfy`). The
  `walkieReducer` as a pure function, and the `useWalkieTalkie` hook as a
  class.
  - The class holds the store, the microphone flag, the messages sent, the
    `timeoutRef` slot and the set of live timers.
  - Its methods are `startRecording`, `stopRecording`, `toggleRecording`,
    `clearError`, the inbound `handleDataReceived` switch, and the firing of
    a timer.
- **Server agent** (`voice_agent.dfy`, `voice_audio.dfy`).
  - The per-room task registry of `ensure_pipeline_for_room`.
  - The speaker-tracking state of `_room_agent` and its event handlers.
  - The signals one `_run_walkie_talkie_turn` publishes: transcript
    assembly, listener choice, the language check, and the failure report.
  - The audio helpers: 16 kHz decimation, padding to whole samples, and the
    translated track's name.
- **The protocol end to end** (`turn_protocol.dfy`). What a client's store
  becomes after it receives everything one agent turn publishes.
- **Chat persistence** (`chat_store.dfy`). The tables `chats`, `user_chats`
  and `messages` are maps keyed by (PK, SK). The module covers
  `find_existing_chat`, `create_chat`, `list_user_chats`, `send_message`,
  `get_chat_meta`, and the cursor handling of `get_messages`.
- **`formatRelativeTime`** of the chat list (`relative_time.dfy`).

Helpers are in `wrappers.dfy` (Option, map lookup) and `text.dfy`. The
latter covers Python's `str.strip` over the 29 characters for which
`str.isspace` holds, `" ".join`, code-point string order, and decimal
rendering.

Three expectations about the system do not match its code, and the model
follows the code:
- **Turn owner and idle state.** One would expect the turn owner to be
  null exactly when the client is idle. The reducer does not look at the
  current state, so PROCESSING, RECORDING_STOP or TTS_PLAYING reaching an
  idle client breaks this. The model therefore proves the invariant only
  for admissible actions (`WalkieReducer.OwnerIffIdleStep`,
  `WalkieReducer.OwnerIffIdleRun`). `WalkieReducer.ProcessingWhileIdle`
  exhibits the break.
- **Timers.** The recording limit and the processing limit are not two
  separate timers. The hook has a single `timeoutRef` slot that both use,
  and that is what the model keeps.
- **Unknown signals.** The docstring of `decode_signal` promises
  `(None, {})` for an unknown signal. The code returns the whole parsed
  object, and `Signals.DecodeSignal` does the same.

## Model

| member | source | states |
|---|---|---|
| Signals.LookupBijection | backend/app/voice/signals.py:16-27 | the lookup table's keys are exactly the six member strings, each maps back to its member, and every key is its member's string |
| Signals.CamelKey | backend/app/voice/signals.py:34-41 | keywords outside the four-entry table keep their own name |
| Signals.CamelKeySignal | backend/app/voice/signals.py:34-41 | a keyword is renamed to the discriminant `signal` exactly when it is `signal` itself |
| Signals.EncodeSignal | backend/app/voice/signals.py:30-43 | on every keyword list Python can bind, the loop builds exactly the fold `Encoded`: `signal` first, then each renamed keyword; a later keyword overwrites an earlier one only when both rename to the same field |
| Signals.EncodedKeys | backend/app/voice/signals.py:30-43 | the encoded object's fields are `signal` plus the renamed keywords, nothing else |
| Signals.EncodedDiscriminant | backend/app/voice/signals.py:32-42 | without a `signal` keyword the discriminant is the member's string |
| Signals.EncodedField | backend/app/voice/signals.py:40-42 | a keyword's value is stored under its renamed key unless a later keyword renames to the same field (as `userId` after `user_id`); with distinct renamed keys this holds for every keyword |
| Signals.DecodeSignal | backend/app/voice/signals.py:46-51 | the payload is always the whole object; the signal is present iff the `signal` field holds one of the six strings, and then it is that member |
| Signals.RoundTrip | backend/app/voice/signals.py:30-51 | decoding an encoding gives back the signal, the discriminant, every keyword under its renamed key and no other field |
| Signals.UnknownDecodesToNone | backend/app/voice/signals.py:49-51 | an unknown discriminant decodes to no signal with the object returned unchanged |
| WalkieReducer.Reduce | frontend/src/hooks/useWalkieTalkie.ts:35-61 | transcripts only grow, by at most one entry at the end; only RECORDING_START, TTS_COMPLETE and ERROR move the owner; TTS_COMPLETE and ERROR always end in idle with no owner; only RECORDING_START, ERROR and CLEAR_ERROR touch the error |
| WalkieReducer.RecordingStartEffect | frontend/src/hooks/useWalkieTalkie.ts:37-38 | RECORDING_START gives `recording`, the named owner, no error, transcripts untouched |
| WalkieReducer.TtsPlayingAppends | frontend/src/hooks/useWalkieTalkie.ts:43-51 | TTS_PLAYING appends exactly one entry with both texts, the speaker and the time, sets `playing` and keeps the owner |
| WalkieReducer.TurnEndErrors | frontend/src/hooks/useWalkieTalkie.ts:52-55 | ERROR shows its message; TTS_COMPLETE leaves the error as it was |
| WalkieReducer.TtsCompleteIdempotent | frontend/src/hooks/useWalkieTalkie.ts:52-53 | a repeated TTS_COMPLETE changes nothing |
| WalkieReducer.ClearErrorAndDefault | frontend/src/hooks/useWalkieTalkie.ts:56-59 | CLEAR_ERROR only clears the error; an unrecognised action returns the store unchanged |
| WalkieReducer.OwnerIffIdleStep | frontend/src/hooks/useWalkieTalkie.ts:35-61 | "owner absent iff idle" survives every admissible action |
| WalkieReducer.ProcessingWhileIdle | frontend/src/hooks/useWalkieTalkie.ts:41-42 | PROCESSING reaching an idle client yields `processing` with no owner, breaking the invariant |
| WalkieReducer.TranscriptsAppendOnly | frontend/src/hooks/useWalkieTalkie.ts:43-51 | over any run of actions the transcript log keeps its prefix |
| WalkieReducer.OwnerIffIdleRun | frontend/src/hooks/useWalkieTalkie.ts:35-61 | over any admissible run of actions the invariant holds at the end |
| WalkieHook.FieldOr | frontend/src/hooks/useWalkieTalkie.ts:100-101 | a missing or empty field falls back to the default, any other value is kept |
| WalkieHook.Inbound | frontend/src/hooks/useWalkieTalkie.ts:83-115 | other topics are ignored; only the five handled discriminants dispatch; the user's own RECORDING_START echo is ignored; played texts default to "", the entry is credited to the current owner; ERROR defaults to "An error occurred"; RECORDING_STOP and CLEAR_ERROR never come from the network; a message without `signal` dispatches nothing; on the topic each of the five handled discriminants dispatches exactly its action |
| WalkieHook.IgnoredSignals | frontend/src/hooks/useWalkieTalkie.ts:88-115 | any other discriminant dispatches nothing |
| WalkieHook.ClientSignal | frontend/src/hooks/useWalkieTalkie.ts:124-130 | the sent object has `signal` plus the payload's fields, payload values kept |
| WalkieHook.WalkieTalkie.CanSpeakExcludesMyTurn | frontend/src/hooks/useWalkieTalkie.ts:165-166 | `isMyTurn` (the owner is this user) and `canSpeak` (the client is idle) exclude each other while the owner/idle invariant holds |
| WalkieHook.WalkieTalkie.constructor | frontend/src/hooks/useWalkieTalkie.ts:63-72 | the hook starts from the initial store with an empty slot and no timers |
| WalkieHook.WalkieTalkie.ClearSlot | frontend/src/hooks/useWalkieTalkie.ts:107-110 | clearing cancels exactly the slot's timer and empties the slot |
| WalkieHook.WalkieTalkie.ArmSlot | frontend/src/hooks/useWalkieTalkie.ts:148-150 | `setTimeout` into the slot: a fresh handle, not live before, now live with a 30 s timer for the task and held by the slot |
| WalkieHook.WalkieTalkie.StartRecording | frontend/src/hooks/useWalkieTalkie.ts:134-140 | only from idle with a room: microphone on, RECORDING_START sent, turn taken, a fresh 30 s timer written over the slot; the single-timer discipline holds afterwards only if no timer was live |
| WalkieHook.WalkieTalkie.StartRecordingClearingSlot | frontend/src/hooks/useWalkieTalkie.ts:134-140 | the same with the slot cleared first: the single-timer discipline is preserved |
| WalkieHook.WalkieTalkie.StopRecording | frontend/src/hooks/useWalkieTalkie.ts:142-151 | only while recording: the slot's timer cancelled, microphone off, RECORDING_STOP sent, `processing`, a fresh 30 s timeout in the slot; single-timer discipline preserved |
| WalkieHook.WalkieTalkie.ToggleRecording | frontend/src/hooks/useWalkieTalkie.ts:153-156 | starts from idle, stops only a recording this user owns, otherwise changes nothing; transcripts never change |
| WalkieHook.WalkieTalkie.ClearErrorCommand | frontend/src/hooks/useWalkieTalkie.ts:158 | only the error is cleared |
| WalkieHook.WalkieTalkie.HandleDataReceived | frontend/src/hooks/useWalkieTalkie.ts:77-116 | the store becomes the reduction of what `Inbound` selects; TTS_COMPLETE also cancels the slot's timer; nothing else touches timers |
| WalkieHook.WalkieTalkie.FireTimer | frontend/src/hooks/useWalkieTalkie.ts:139-150 | as written: the processing timeout reports "Translation timed out"; the recording limit changes nothing |
| WalkieHook.WalkieTalkie.FireTimerFresh | frontend/src/hooks/useWalkieTalkie.ts:139-150 | with a current `stopRecording`: the recording limit stops a running recording, announces it, cancels the slot's timer and arms the processing timeout in the slot; with no recording or no room it only retires itself; the processing timeout reports "Translation timed out"; the single-timer discipline is kept |
| WalkieHook.StaleAutoStopScenario | frontend/src/hooks/useWalkieTalkie.ts:134-143 | after the 30 s limit fires the recording goes on, microphone on, no RECORDING_STOP sent |
| WalkieHook.FreshAutoStopScenario | frontend/src/hooks/useWalkieTalkie.ts:134-151 | with the corrected firing the recording is stopped and announced |
| WalkieHook.HappyPathScenario | frontend/src/hooks/useWalkieTalkie.ts:134-156 | record, stop, play, complete: idle, no owner, one transcript entry, two signals sent |
| WalkieHook.OrphanedTimeoutScenario | frontend/src/hooks/useWalkieTalkie.ts:134-150 | after an inbound ERROR, a new recording orphans the old timeout, which later ends that recording with the microphone still on |
| WalkieHook.ClearedTimeoutScenario | frontend/src/hooks/useWalkieTalkie.ts:134-150 | clearing the slot before re-arming keeps the new recording alive |
| VoiceAgent.FindMember | backend/app/voice/service.py:204 | the member looked up carries the requested id |
| VoiceAgent.Roster | backend/app/voice/service.py:72-78 | the members are exactly the chat's ids with a known user, each once |
| VoiceAgent.LoadMembers | backend/app/voice/service.py:69-81 | no chat, or fewer than two known members, stops the agent; otherwise the roster |
| VoiceAgent.Listener | backend/app/voice/service.py:205 | the first member whose id differs from the speaker's, none iff every member is the speaker |
| VoiceAgent.StrippedParts | backend/app/voice/service.py:287-290 | the kept transcript parts are never empty |
| VoiceAgent.CollectTranscriptParts | backend/app/voice/service.py:281-296 | the receive loop keeps exactly the stripped non-empty committed chunks, in order |
| VoiceAgent.StrippedPartsEmpty | backend/app/voice/service.py:287-290 | no part survives iff every chunk is whitespace |
| VoiceAgent.TranscriptEmpty | backend/app/voice/service.py:310-317 | `Transcript`, the space-join of the kept parts, is empty iff every chunk is whitespace |
| VoiceAgent.ListenerSignals | backend/app/voice/service.py:216-339 | same language or empty transcript: TTS_COMPLETE alone; otherwise PROCESSING, TTS_PLAYING with both texts, TTS_COMPLETE |
| VoiceAgent.TurnSignals | backend/app/voice/service.py:204-339 | a turn that says anything ends with TTS_COMPLETE and has one or three signals |
| VoiceAgent.TurnSignalsCases | backend/app/voice/service.py:204-339 | nothing iff there is no (truthy) listener; otherwise the two shapes above, with the speaker's and the listener's languages |
| VoiceAgent.TurnOutput | backend/app/voice/service.py:170-180 | a turn raising after k signals publishes those k and then ERROR "Translation failed" |
| VoiceAgent.TurnEndsClosed | backend/app/voice/service.py:170-180 | every turn that publishes anything ends with TTS_COMPLETE or the failure report |
| VoiceAgent.EncodeAll | backend/app/voice/service.py:90-94 | the published objects are the encodings of the signals, one for one |
| VoiceAgent.EncodeTurn | backend/app/voice/service.py:90-94 | the publishing loop produces exactly `EncodeAll` |
| VoiceAgent.PublishTurn | backend/app/voice/service.py:170-180 | one turn with its failure handler publishes the encoded `TurnOutput` |
| VoiceAgent.PipelineRegistry.TrackedOneRunning | backend/app/voice/service.py:18-19 | while every running task is its room's entry, no room has two running pipelines |
| VoiceAgent.PipelineRegistry.constructor | backend/app/voice/service.py:19 | the registry starts empty |
| VoiceAgent.PipelineRegistry.EnsurePipeline | backend/app/voice/service.py:46-52 | starts a task iff the room's entry is missing or finished, registers it under the room, and preserves tracking |
| VoiceAgent.PipelineRegistry.Finish | backend/app/voice/service.py:55-60 | a task finishing preserves tracking |
| VoiceAgent.PipelineRegistry.RunDoneCallback | backend/app/voice/service.py:55-58 | as written: removes the room's entry whatever task it names; tracking survives only if the entry was this task's |
| VoiceAgent.PipelineRegistry.RunDoneCallbackGuarded | backend/app/voice/service.py:55-58 | removing only this task's own entry preserves tracking in every order of events |
| VoiceAgent.DuplicatePipelineScenario | backend/app/voice/service.py:46-60 | a late done-callback lets a third request start a pipeline beside a running one |
| VoiceAgent.GuardedPipelineScenario | backend/app/voice/service.py:46-60 | with the guarded callback the same third request is refused |
| VoiceAgent.RoomAgent.constructor | backend/app/voice/service.py:83-88 | the agent starts with no speaker, no pending speaker, no stream and nothing published |
| VoiceAgent.RoomAgent.TryAttachAudio | backend/app/voice/service.py:96-110 | attaches iff the speaker has an audio track: speaker and stream set, pending cleared, recording active; otherwise nothing changes |
| VoiceAgent.RoomAgent.OnTrackSubscribed | backend/app/voice/service.py:112-120 | non-audio tracks change nothing; an audio track from the awaited speaker attaches it at once |
| VoiceAgent.RoomAgent.OnDataReceived | backend/app/voice/service.py:122-140 | other topics, other signals and RECORDING_START without a known, non-empty user change nothing; RECORDING_START attaches or awaits the speaker; RECORDING_STOP clears the awaited speaker and the recording flag |
| VoiceAgent.RoomAgent.OnParticipantDisconnected | backend/app/voice/service.py:142-149 | a leaving recording speaker ends the recording; a leaving awaited speaker is forgotten |
| VoiceAgent.RoomAgent.RunTurn | backend/app/voice/service.py:155-184 | with a speaker and a stream the turn's messages are published in order and speaker, stream and pending speaker reset; without one the flag is cleared |
| VoiceAgent.RoomAgent.TakeTurn | backend/app/voice/service.py:170-184 | the recording speaker's turn messages, failure report included, are appended to the published log, after which no speaker, stream or pending speaker remains |
| VoiceAudio.Stride | backend/app/voice/service.py:247 | `samples[::f]`: ceil(n/f) samples, the i-th being sample i*f |
| VoiceAudio.Downsample | backend/app/voice/service.py:243-248 | a rate of 16 kHz or one not divisible by it passes through; a multiple is decimated by its ratio; a zero rate fails |
| VoiceAudio.Downsample48k | backend/app/voice/service.py:244-247 | 48 kHz input keeps ceil(n/3) samples |
| VoiceAudio.PadToSamples | backend/app/voice/service.py:384-386 | the chunk is kept and padded with one zero byte to even length |
| VoiceAudio.SamplesPerChannel | backend/app/voice/service.py:387-392 | the frame's sample count covers the padded chunk exactly |
| VoiceAudio.TrackName | backend/app/voice/service.py:371-373 | the track is named `translated-` followed by the speaker id |
| VoiceAudio.TrackNameInjective | backend/app/voice/service.py:371-373 | different speakers get different track names |
| TurnProtocol.InboundProcessing | frontend/src/hooks/useWalkieTalkie.ts:94-96 | the agent's PROCESSING dispatches PROCESSING |
| TurnProtocol.InboundComplete | frontend/src/hooks/useWalkieTalkie.ts:105-106 | the agent's TTS_COMPLETE dispatches TTS_COMPLETE |
| TurnProtocol.InboundFailed | frontend/src/hooks/useWalkieTalkie.ts:112-113 | the agent's failure report dispatches ERROR "Translation failed" |
| TurnProtocol.InboundPlaying | frontend/src/hooks/useWalkieTalkie.ts:97-103 | the agent's TTS_PLAYING dispatches both texts, credited to the current owner |
| TurnProtocol.InboundOfAgentSignals | frontend/src/hooks/useWalkieTalkie.ts:88-115 | each signal the agent publishes arrives as the matching action |
| TurnProtocol.ReceiveUntranslatedTurn | frontend/src/hooks/useWalkieTalkie.ts:52-53 | TTS_COMPLETE alone makes the client idle with no owner, nothing else changed |
| TurnProtocol.ReceiveTranslatedTurn | frontend/src/hooks/useWalkieTalkie.ts:41-53 | PROCESSING, TTS_PLAYING, TTS_COMPLETE leave one new entry credited to the recorded owner, then idle |
| TurnProtocol.ReceiveListenerSignals | backend/app/voice/service.py:216-339 | a turn with a listener, as received, gives idle, no owner and the entry only when translated |
| TurnProtocol.CompletedTurnOnClient | backend/app/voice/service.py:204-339 | after a completed turn every client is idle with no owner, the error untouched, and exactly one new entry (transcript, translation, recorded speaker) iff the turn translated |
| TurnProtocol.ReceiveClosedRun | frontend/src/hooks/useWalkieTalkie.ts:52-55 | any run closing with TTS_COMPLETE or the failure report ends idle with no owner |
| TurnProtocol.AnyTurnReleasesClient | backend/app/voice/service.py:170-180 | a completed or failed turn releases every client, and a failure shows "Translation failed" |
| Text.StripSlice | backend/app/voice/service.py:288 | a stripped chunk is the chunk less a whitespace prefix and suffix, and starts and ends with non-whitespace |
| Text.StripEmpty | backend/app/voice/service.py:288-289 | a chunk strips to "" iff it is all whitespace |
| Text.JoinSpace | backend/app/voice/service.py:310 | the join has the parts' total length plus one space between neighbours, starts with the first part and puts a space after it |
| Text.JoinSpaceEmpty | backend/app/voice/service.py:310 | joining non-empty parts gives "" iff there are none |
| Text.LexLeTotal | backend/app/chat/service.py:82 | any two `updatedAt` strings are ordered one way or the other |
| Text.LexLeTransitive | backend/app/chat/service.py:82 | the string order is transitive |
| Text.NatToString | frontend/src/components/ChatList.tsx:12-14 | decimal digits without a leading zero whose value is the number |
| ChatStore.Preview | backend/app/chat/service.py:141-146 | a preview is the text's first characters, at most 100, the whole text when it is short enough |
| ChatStore.RecipientText | backend/app/chat/service.py:120-123 | same language: the original; otherwise its translation |
| ChatStore.DualWrite | backend/app/chat/service.py:108-133 | both copies share id, timestamp and author; the sender's holds the original in the sender's language, the recipient's the recipient text in the recipient's |
| ChatStore.SetPreview | backend/app/chat/service.py:138-147 | the upsert sets preview and `updatedAt`, keeps the other fields of an existing item and creates a bare one otherwise |
| ChatStore.SortKey | backend/app/chat/service.py:82 | the sort value is the item's `updatedAt`, or "" when it has none |
| ChatStore.UndatedLast | backend/app/chat/service.py:82 | in a newest-first list an item without `updatedAt` comes after every item with a non-empty one |
| ChatStore.InsertNewestFirst | backend/app/chat/service.py:82 | inserting adds exactly the one item |
| ChatStore.InsertKeepsNewestFirst | backend/app/chat/service.py:82 | inserting into a newest-first list keeps it newest first |
| ChatStore.ChatDb.constructor | backend/app/chat/service.py:41-51 | the tables the service writes, `chats`, `user_chats` and `messages`, start empty |
| ChatStore.ChatDb.GetChatMeta | backend/app/chat/service.py:86-91 | the META item of the chat if present |
| ChatStore.ChatDb.QueryRows | backend/app/chat/service.py:24-26 | the query returns the user's items in sort-key order |
| ChatStore.ChatDb.FindExistingChat | backend/app/chat/service.py:20-30 | the first of the user's items naming the other user; none iff the user has no such item |
| ChatStore.ChatDb.ListUserChats | backend/app/chat/service.py:74-83 | the user's items, a permutation of the query's, ordered by `updatedAt` descending with "" for a missing value |
| ChatStore.ChatDb.CreateChat | backend/app/chat/service.py:33-71 | META lists [current, other]; two mirrored items each naming the other member, no preview, same `updatedAt`; both members can find the chat |
| ChatStore.ChatDb.SendMessage | backend/app/chat/service.py:94-149 | both copies stored under the same sort key in each member's partition, both previews set with the same `updatedAt`, the pair returned; if the translation raises, only the sender's copy is left stored, no preview changes and nothing is returned |
| ChatStore.SendMessagePreviews | backend/app/chat/service.py:136-147 | for two different members, each item shows its own preview of at most 100 characters, both with the same `updatedAt`, other user unchanged |
| ChatStore.StartKey | backend/app/chat/service.py:164-168 | a non-empty cursor becomes the start key within the user's copy of the chat; none or "" gives no start key |
| ChatStore.NextCursor | backend/app/chat/service.py:172-174 | the next cursor is the sort key of the last evaluated key, none iff there is none |
| ChatStore.CursorRoundTrip | backend/app/chat/service.py:164-174 | handing a page's cursor back resumes right after that page's last message |
| RelativeTime.DiffSec | frontend/src/components/ChatList.tsx:9 | whole elapsed seconds rounded down, also for future dates |
| RelativeTime.Classify | frontend/src/components/ChatList.tsx:11-15 | the five buckets are disjoint and exhaustive; minutes 1..59, hours 1..23, days 1..6, each the floor of the difference |
| RelativeTime.Render | frontend/src/components/ChatList.tsx:11-15 | "just now"; a decimal count without leading zero denoting the bucket's minutes, hours or days, then "m ago", "h ago" or "d ago"; or the locale date |
| RelativeTime.FormatRelativeTime | frontend/src/components/ChatList.tsx:5-16 | an absent or empty date gives ""; an unparsable one the locale date; otherwise the bucket's label |
| RelativeTime.RecentIsJustNow | frontend/src/components/ChatList.tsx:9-11 | anything less than a minute old, or in the future, is "just now" |
| RelativeTime.WithinWeekLabel | frontend/src/components/ChatList.tsx:11-14 | under a week the label is "just now" or digits followed by "m ago", "h ago" or "d ago" |

## Left out

- Network, media and external services are outside the model: LiveKit
  connections, the ElevenLabs speech-to-text and text-to-speech websockets,
  and the OpenAI call. Transcript chunks are an input sequence, the
  translation is a function parameter, and a turn's failure point is a
  parameter.
- The agent loop's one-second waits, and its exit when the room has stayed
  empty for five seconds, depend on time and on the room. They are not
  modelled.
- Concurrency inside a turn is not modelled. A RECORDING_STOP that arrives
  while the agent is streaming audio ends `send_audio` in the source. The
  model runs each handler and each turn as one atomic step.
- Concurrency in the client hook is not modelled either. `startRecording`,
  `stopRecording` and `toggleRecording` run with their awaits as one step.
  A second click while `setMicrophoneEnabled` or `publishData` is pending
  could send a second RECORDING_START in the source; the model cannot.
- A rejected `setMicrophoneEnabled` or `publishData` promise is not
  modelled: both calls always succeed.
- Signals.EncodeSignal: only keyword lists Python can bind are accepted
  (`Signals.Bindable`). The `TypeError` for a keyword named `signal` or a
  repeated name is not modelled.
- VoiceAgent.Language: a `nativeLanguage` attribute stored as null is
  modelled as absent and gives "en". Python's `.get` would return None.
- VoiceAgent.ListenerSignals: the 5-second speech-to-text fallback and the
  cancellation of the receiver are not modelled. The committed chunks that
  arrived before cancellation are the input.
- Audio frames are not decoded into samples, and the base64 and PCM
  byte-level encodings are not modelled. `Downsample` works on a sequence of
  samples, and `PadToSamples` on bytes.
- ChatStore.ChatDb.ListUserChats: states a permutation sorted newest first.
  It does not state that items with equal `updatedAt` keep the query's
  order, although the insertion used keeps them so, as `list.sort` does.
- ChatStore.ChatDb.QueryRows: DynamoDB's sort-key order is taken as the
  `order` parameter rather than computed. So are the `Limit`, the
  `ScanIndexForward` paging and the page contents of `get_messages`; only
  the cursor handling is modelled.
- Generated uuids and `datetime.now()` are parameters.
- `generate_livekit_token`, `_generate_agent_token`, `translate_text` and
  the auth service are not part of this model.
- There is no separate audio track router in the source. Translated audio is
  routed only by the per-speaker track name, `VoiceAudio.TrackName`.
- Logging is omitted throughout.

## Findings

| source | as written | input that shows it | evidently intended | confidence | as-written member | corrected member |
|---|---|---|---|---|---|---|
| frontend/src/hooks/useWalkieTalkie.ts:139 | `startRecording` writes the new timer into `timeoutRef` without clearing the one it holds | record, stop, receive ERROR (which does not clear the slot), record again: the earlier "Translation timed out" timer is still live and fires in the middle of the new recording | clear the slot before re-arming, as `stopRecording` does | not executed | WalkieHook.OrphanedTimeoutScenario | WalkieHook.WalkieTalkie.StartRecordingClearingSlot |
| frontend/src/hooks/useWalkieTalkie.ts:139 | the 30 s timer calls the `stopRecording` closed over when `startRecording` was created, whose state is `idle`, so its guard always returns | record and keep recording for 30 s: the state stays `recording`, the microphone on, no RECORDING_STOP | the recording limit stops the recording | not executed | WalkieHook.StaleAutoStopScenario | WalkieHook.WalkieTalkie.FireTimerFresh |
| backend/app/voice/service.py:55-56 | `on_done` pops the room's entry whichever task it names | task 0 finishes; before its callback runs, a request starts task 1; the callback removes task 1's entry; a third request starts task 2 beside the running task 1 | pop the entry only while it names the finishing task | not executed | VoiceAgent.DuplicatePipelineScenario | VoiceAgent.PipelineRegistry.RunDoneCallbackGuarded |
