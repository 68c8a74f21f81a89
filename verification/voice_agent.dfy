/** The server-side translation agent of backend/app/voice/service.py: the
    per-room task registry of `ensure_pipeline_for_room`, the speaker-tracking
    state of `_room_agent` with its event handlers, and the signals one turn
    of `_run_walkie_talkie_turn` publishes. LiveKit, ElevenLabs and OpenAI
    calls are outside the model: room membership and audio-track availability
    are fields updated by the transport's events, transcript chunks are an
    input sequence and the translation is a function parameter. */
module VoiceAgent {
  import opened Wrappers
  import Text
  import Signals

  /** A chat member as loaded for the room: id and optional `nativeLanguage`. */
  datatype Member = Member(userId: string, nativeLanguage: Option<string>)

  /** `user.get("nativeLanguage", "en")`. */
  function Language(m: Member): string {
    m.nativeLanguage.GetOr("en")
  }

  predicate IsMember(members: seq<Member>, id: string) {
    exists i :: 0 <= i < |members| && members[i].userId == id
  }

  /** `members[id]`: the member with that id (the first, should ids repeat). */
  function FindMember(members: seq<Member>, id: string): (m: Member)
    requires IsMember(members, id)
    ensures m in members && m.userId == id
  {
    if members[0].userId == id then members[0] else FindMember(members[1..], id)
  }

  predicate DistinctIds(members: seq<Member>) {
    forall i, j :: 0 <= i < j < |members| ==> members[i].userId != members[j].userId
  }

  /** The `members` dict built from the chat's `memberUserIds`: each id whose
      user exists, once, in the order of first appearance. `users` stands for
      `get_user_by_id`, with the password hash already dropped. */
  function Roster(ids: seq<string>, users: map<string, Member>): (r: seq<Member>)
    requires forall id :: id in users ==> users[id].userId == id
    ensures DistinctIds(r)
    ensures forall m :: m in r <==> m.userId in ids && m.userId in users && users[m.userId] == m
    decreases |ids|
  {
    if ids == [] then []
    else
      var init := Roster(ids[..|ids| - 1], users);
      var id := ids[|ids| - 1];
      assert forall x :: x in ids <==> x in ids[..|ids| - 1] || x == id;
      if id in users && !IsMember(init, id) then init + [users[id]] else init
  }

  /** The start of `_room_agent`: no chat, or fewer than two known members,
      ends the agent before it joins the room. */
  method LoadMembers(chatMemberIds: Option<seq<string>>, users: map<string, Member>)
    returns (members: Option<seq<Member>>)
    requires forall id :: id in users ==> users[id].userId == id
    ensures chatMemberIds.None? ==> members.None?
    ensures chatMemberIds.Some? ==>
              var roster := Roster(chatMemberIds.value, users);
              members == if |roster| < 2 then None else Some(roster)
  {
    if chatMemberIds.None? {
      return None;
    }
    var ids := chatMemberIds.value;
    var roster := [];
    for i := 0 to |ids|
      invariant roster == Roster(ids[..i], users)
    {
      assert ids[..i + 1][..i] == ids[..i];
      if ids[i] in users && !IsMember(roster, ids[i]) {
        roster := roster + [users[ids[i]]];
      }
    }
    assert ids[..|ids|] == ids;
    if |roster| < 2 {
      return None;
    }
    members := Some(roster);
  }

  /** `next((uid for uid in members if uid != speaker_id), None)`. */
  function Listener(members: seq<Member>, speakerId: string): (r: Option<Member>)
    ensures r.None? <==> forall i :: 0 <= i < |members| ==> members[i].userId == speakerId
    ensures r.Some? ==> exists i :: 0 <= i < |members| && members[i] == r.value &&
                          r.value.userId != speakerId &&
                          forall j :: 0 <= j < i ==> members[j].userId == speakerId
  {
    if members == [] then None
    else if members[0].userId != speakerId then Some(members[0])
    else
      var r := Listener(members[1..], speakerId);
      if r.Some? then
        var i :| 0 <= i < |members[1..]| && members[1..][i] == r.value &&
                 r.value.userId != speakerId &&
                 forall j :: 0 <= j < i ==> members[1..][j].userId == speakerId;
        assert members[i + 1] == r.value;
        assert forall j :: 0 <= j < i + 1 ==> members[j].userId == speakerId by {
          forall j | 0 <= j < i + 1 ensures members[j].userId == speakerId {
            if j > 0 { assert members[j] == members[1..][j - 1]; }
          }
        }
        r
      else r
  }

  /** The committed transcript chunks, stripped, with the empty ones dropped. */
  function StrippedParts(chunks: seq<string>): (parts: seq<string>)
    ensures |parts| <= |chunks|
    ensures forall i :: 0 <= i < |parts| ==> parts[i] != ""
    decreases |chunks|
  {
    if chunks == [] then []
    else
      var init := StrippedParts(chunks[..|chunks| - 1]);
      var text := Text.Strip(chunks[|chunks| - 1]);
      if text != "" then init + [text] else init
  }

  /** `receive_transcripts`: appends each committed chunk's stripped text
      when it is not empty. */
  method CollectTranscriptParts(chunks: seq<string>) returns (parts: seq<string>)
    ensures parts == StrippedParts(chunks)
  {
    parts := [];
    for i := 0 to |chunks|
      invariant parts == StrippedParts(chunks[..i])
    {
      assert chunks[..i + 1][..i] == chunks[..i];
      var text := Text.Strip(chunks[i]);
      if text != "" {
        parts := parts + [text];
      }
    }
    assert chunks[..|chunks|] == chunks;
  }

  /** Every chunk is whitespace only. */
  predicate AllBlank(chunks: seq<string>) {
    forall i :: 0 <= i < |chunks| ==> Text.AllSpace(chunks[i])
  }

  lemma AllBlankSnoc(init: seq<string>, last: string)
    ensures AllBlank(init + [last]) <==> AllBlank(init) && Text.AllSpace(last)
  {
    var s := init + [last];
    assert forall i :: 0 <= i < |init| ==> s[i] == init[i];
    assert s[|init|] == last;
  }

  /** No part survives exactly when every chunk is whitespace only. */
  lemma {:induction false} StrippedPartsEmpty(chunks: seq<string>)
    ensures StrippedParts(chunks) == [] <==> AllBlank(chunks)
    decreases |chunks|
  {
    if chunks != [] {
      var init := chunks[..|chunks| - 1];
      var last := chunks[|chunks| - 1];
      assert chunks == init + [last];
      StrippedPartsEmpty(init);
      Text.StripEmpty(last);
      AllBlankSnoc(init, last);
    }
  }

  /** `" ".join(transcript_parts)`. */
  function Transcript(chunks: seq<string>): string {
    Text.JoinSpace(StrippedParts(chunks))
  }

  /** The transcript is empty exactly when no chunk holds anything but whitespace. */
  lemma TranscriptEmpty(chunks: seq<string>)
    ensures Transcript(chunks) == "" <==> AllBlank(chunks)
  {
    Text.JoinSpaceEmpty(StrippedParts(chunks));
    StrippedPartsEmpty(chunks);
  }

  /** A signal to publish: the member and the keyword arguments given to `encode_signal`. */
  datatype Outgoing = Outgoing(signal: Signals.Signal, kwargs: Signals.Kwargs)

  /** Every signal's keywords are a list Python binds to `encode_signal`. */
  predicate AllBindable(outs: seq<Outgoing>) {
    forall i :: 0 <= i < |outs| ==> Signals.Bindable(outs[i].kwargs)
  }

  /** The signals of a turn that has a listener, from the two languages
      and the transcript. */
  function ListenerSignals(src: string, dst: string, text: string,
                           translate: (string, string, string) -> string): (r: seq<Outgoing>)
    ensures r != [] && r[|r| - 1] == Outgoing(Signals.TtsComplete, [])
    ensures src == dst || text == "" <==> r == [Outgoing(Signals.TtsComplete, [])]
    ensures |r| > 1 ==>
              |r| == 3 && r[0] == Outgoing(Signals.Processing, []) &&
              r[1] == Outgoing(Signals.TtsPlaying, [("original_text", text), ("translated_text", translate(text, src, dst))])
    ensures AllBindable(r)
  {
    if src == dst || text == "" then [Outgoing(Signals.TtsComplete, [])]
    else [Outgoing(Signals.Processing, []),
          Outgoing(Signals.TtsPlaying, [("original_text", text), ("translated_text", translate(text, src, dst))]),
          Outgoing(Signals.TtsComplete, [])]
  }

  /** The signals `_run_walkie_talkie_turn` publishes when nothing raises.
      `translate(text, source, target)` stands for `translate_text`. */
  function TurnSignals(members: seq<Member>, speakerId: string, chunks: seq<string>,
                       translate: (string, string, string) -> string): (r: seq<Outgoing>)
    requires IsMember(members, speakerId)
    // every turn that says anything ends with TTS_COMPLETE, after at most two other signals
    ensures r != [] ==> r[|r| - 1] == Outgoing(Signals.TtsComplete, [])
    ensures |r| == 0 || |r| == 1 || |r| == 3
    ensures AllBindable(r)
  {
    var listener := Listener(members, speakerId);
    if listener.None? || listener.value.userId == "" then []
    else ListenerSignals(Language(FindMember(members, speakerId)), Language(listener.value), Transcript(chunks), translate)
  }

  /** The three shapes of a turn: nothing without a listener (or with one
      whose id is empty); TTS_COMPLETE alone for two speakers of the same
      language or an empty transcript; otherwise PROCESSING, then
      TTS_PLAYING with the transcript and its translation, then TTS_COMPLETE. */
  lemma TurnSignalsCases(members: seq<Member>, speakerId: string, chunks: seq<string>,
                         translate: (string, string, string) -> string)
    requires IsMember(members, speakerId)
    ensures var r := TurnSignals(members, speakerId, chunks, translate);
            var listener := Listener(members, speakerId);
            (r == [] <==> listener.None? || listener.value.userId == "") &&
            (r != [] ==>
               var src := Language(FindMember(members, speakerId));
               var dst := Language(listener.value);
               var text := Transcript(chunks);
               if src == dst || text == "" then r == [Outgoing(Signals.TtsComplete, [])]
               else r == [Outgoing(Signals.Processing, []),
                          Outgoing(Signals.TtsPlaying, [("original_text", text), ("translated_text", translate(text, src, dst))]),
                          Outgoing(Signals.TtsComplete, [])])
  {
  }

  const TranslationFailed: Outgoing := Outgoing(Signals.Error, [("message", "Translation failed")])

  /** What a turn publishes when it raises after its first `failAfter`
      signals went out: those signals, then ERROR "Translation failed". */
  function TurnOutput(signals: seq<Outgoing>, failAfter: Option<nat>): (r: seq<Outgoing>)
    ensures failAfter.None? || failAfter.value > |signals| ==> r == signals
    ensures failAfter.Some? && failAfter.value <= |signals| ==>
              r == signals[..failAfter.value] + [TranslationFailed]
    ensures r != [] ==> r[|r| - 1] in {Outgoing(Signals.TtsComplete, []), TranslationFailed} ||
                        (signals != [] && r[|r| - 1] == signals[|signals| - 1])
    ensures AllBindable(signals) ==> AllBindable(r)
  {
    if failAfter.Some? && failAfter.value <= |signals| then signals[..failAfter.value] + [TranslationFailed]
    else signals
  }

  /** Every turn that publishes anything closes with TTS_COMPLETE or with the failure report. */
  lemma TurnEndsClosed(members: seq<Member>, speakerId: string, chunks: seq<string>,
                       translate: (string, string, string) -> string, failAfter: Option<nat>)
    requires IsMember(members, speakerId)
    ensures var out := TurnOutput(TurnSignals(members, speakerId, chunks, translate), failAfter);
            out != [] ==> out[|out| - 1] in {Outgoing(Signals.TtsComplete, []), TranslationFailed}
  {
  }

  /** The JSON objects `_publish_signal` hands to the data channel, in order. */
  function EncodeAll(outs: seq<Outgoing>): (r: seq<Signals.Json>)
    ensures |r| == |outs|
    ensures forall i :: 0 <= i < |r| ==> r[i] == Signals.Encoded(outs[i].signal, outs[i].kwargs)
  {
    seq(|outs|, i requires 0 <= i < |outs| => Signals.Encoded(outs[i].signal, outs[i].kwargs))
  }

  /** `_publish_signal` applied to each signal in turn: encodes every
      signal, in order. */
  method EncodeTurn(outs: seq<Outgoing>) returns (sent: seq<Signals.Json>)
    requires AllBindable(outs)
    ensures sent == EncodeAll(outs)
  {
    sent := [];
    for i := 0 to |outs|
      invariant sent == EncodeAll(outs[..i])
    {
      var data := Signals.EncodeSignal(outs[i].signal, outs[i].kwargs);
      sent := sent + [data];
    }
    assert outs[..|outs|] == outs;
  }

  /** The data messages one turn puts on the channel, oldest first. */
  function TurnMessages(members: seq<Member>, speakerId: string, chunks: seq<string>,
                        translate: (string, string, string) -> string, failAfter: Option<nat>): seq<Signals.Json>
    requires IsMember(members, speakerId)
  {
    EncodeAll(TurnOutput(TurnSignals(members, speakerId, chunks, translate), failAfter))
  }

  /** The body of `_run_walkie_talkie_turn` together with the failure
      handler around it: the messages of the turn, in order. */
  method PublishTurn(members: seq<Member>, speakerId: string, chunks: seq<string>,
                     translate: (string, string, string) -> string, failAfter: Option<nat>)
    returns (sent: seq<Signals.Json>)
    requires IsMember(members, speakerId)
    ensures sent == TurnMessages(members, speakerId, chunks, translate, failAfter)
  {
    sent := EncodeTurn(TurnOutput(TurnSignals(members, speakerId, chunks, translate), failAfter));
  }

  /** The task registry `_active_rooms` with the tasks it has started. A task
      is identified by its index in `taskRoom`; `done` holds the finished ones. */
  class PipelineRegistry {
    var activeRooms: map<string, nat>
    var taskRoom: seq<string>
    var done: set<nat>

    ghost predicate Valid()
      reads this
    {
      forall room :: room in activeRooms ==>
        activeRooms[room] < |taskRoom| && taskRoom[activeRooms[room]] == room
    }

    /** Every unfinished task is the one its room's entry names. */
    predicate Tracked()
      reads this
    {
      forall t :: 0 <= t < |taskRoom| && t !in done ==>
        taskRoom[t] in activeRooms && activeRooms[taskRoom[t]] == t
    }

    /** The registry's purpose: never two unfinished pipelines for one room. */
    predicate OneRunningPerRoom()
      reads this
    {
      forall t, u :: 0 <= t < u < |taskRoom| && taskRoom[t] == taskRoom[u] ==> t in done || u in done
    }

    lemma TrackedOneRunning()
      requires Tracked()
      ensures OneRunningPerRoom()
    {
      forall t, u | 0 <= t < u < |taskRoom| && taskRoom[t] == taskRoom[u] ensures t in done || u in done {
      }
    }

    constructor ()
      ensures Valid() && Tracked()
      ensures activeRooms == map[] && taskRoom == [] && done == {}
    {
      activeRooms := map[];
      taskRoom := [];
      done := {};
    }

    /** `ensure_pipeline_for_room`: starts a task unless the room's registered
        task is still running, and registers the new task under the room. */
    method EnsurePipeline(room: string) returns (started: bool)
      requires Valid()
      modifies this`activeRooms, this`taskRoom
      ensures Valid()
      ensures old(Tracked()) ==> Tracked()
      ensures started <==> !(room in old(activeRooms) && old(activeRooms)[room] !in done)
      ensures started ==> taskRoom == old(taskRoom) + [room] &&
                          activeRooms == old(activeRooms)[room := |old(taskRoom)|]
      ensures !started ==> taskRoom == old(taskRoom) && activeRooms == old(activeRooms)
    {
      if room in activeRooms && activeRooms[room] !in done {
        return false;
      }
      activeRooms := activeRooms[room := |taskRoom|];
      taskRoom := taskRoom + [room];
      started := true;
    }

    /** A task returns or raises. Its `on_done` callback runs later, as a separate event. */
    method Finish(task: nat)
      requires Valid()
      modifies this`done
      ensures Valid()
      ensures old(Tracked()) ==> Tracked()
      ensures done == old(done) + {task}
    {
      done := done + {task};
    }

    /** `on_done` as written: removes the room's entry whichever task it names. */
    method RunDoneCallback(task: nat)
      requires Valid() && task < |taskRoom| && task in done
      modifies this`activeRooms
      ensures Valid()
      ensures activeRooms == old(activeRooms) - {taskRoom[task]}
      ensures old(Tracked()) &&
              (taskRoom[task] !in old(activeRooms) || old(activeRooms)[taskRoom[task]] == task) ==>
                Tracked()
    {
      activeRooms := activeRooms - {taskRoom[task]};
    }

    /** `on_done` removing the entry only while it still names this task:
        the registry then tracks every running task whatever the order of events. */
    method RunDoneCallbackGuarded(task: nat)
      requires Valid() && task < |taskRoom| && task in done
      modifies this`activeRooms
      ensures Valid()
      ensures old(Tracked()) ==> Tracked()
      ensures activeRooms == if taskRoom[task] in old(activeRooms) && old(activeRooms)[taskRoom[task]] == task
                             then old(activeRooms) - {taskRoom[task]} else old(activeRooms)
    {
      var room := taskRoom[task];
      if room in activeRooms && activeRooms[room] == task {
        activeRooms := activeRooms - {room};
      }
    }
  }

  /** The first task finishes; before its callback runs a new request starts a
      second task; the late callback removes the second task's entry, so a third
      request starts a third task while the second is still running. */
  method DuplicatePipelineScenario() returns (second: nat, third: nat, bothRunning: bool)
    ensures second != third && bothRunning
  {
    var reg := new PipelineRegistry();
    var s0 := reg.EnsurePipeline("chat-1");
    reg.Finish(0);
    var s1 := reg.EnsurePipeline("chat-1");
    reg.RunDoneCallback(0);
    var s2 := reg.EnsurePipeline("chat-1");
    assert s2 && |reg.taskRoom| == 3;
    second, third := 1, 2;
    bothRunning := reg.taskRoom[1] == reg.taskRoom[2] && 1 !in reg.done && 2 !in reg.done;
    assert !reg.OneRunningPerRoom();
  }

  /** The same events with the guarded callback: the third request is refused. */
  method GuardedPipelineScenario() returns (started: bool)
    ensures !started
  {
    var reg := new PipelineRegistry();
    var s0 := reg.EnsurePipeline("chat-1");
    reg.Finish(0);
    var s1 := reg.EnsurePipeline("chat-1");
    reg.RunDoneCallbackGuarded(0);
    started := reg.EnsurePipeline("chat-1");
  }

  /** One room's agent: who is recording, who is awaited, and whose audio is attached. */
  class RoomAgent {
    /** The chat's members, loaded before any handler is registered. */
    const members: seq<Member>
    /** Remote participants that currently publish a subscribed audio track. */
    var audible: set<string>
    var recordingSpeaker: Option<string>
    var pendingSpeaker: Option<string>
    /** The participant whose audio track `audio_stream` reads. */
    var audioStream: Option<string>
    /** The `recording_active` event. */
    var recordingActive: bool
    /** Every data message published on the walkie-talkie topic, oldest first. */
    var published: seq<Signals.Json>

    ghost predicate Valid()
      reads this
    {
      (recordingSpeaker.Some? ==> IsMember(members, recordingSpeaker.value) && recordingSpeaker.value != "" &&
                                  audioStream == recordingSpeaker) &&
      (pendingSpeaker.Some? ==> IsMember(members, pendingSpeaker.value) && pendingSpeaker.value != "")
    }

    constructor (members: seq<Member>, audible: set<string>)
      requires |members| >= 2 && DistinctIds(members)
      ensures Valid()
      ensures this.members == members && this.audible == audible
      ensures recordingSpeaker == None && pendingSpeaker == None && audioStream == None
      ensures !recordingActive && published == []
    {
      this.members := members;
      this.audible := audible;
      recordingSpeaker := None;
      pendingSpeaker := None;
      audioStream := None;
      recordingActive := false;
      published := [];
    }

    /** `_try_attach_audio`: attaches the speaker's audio track if there is
        one, making it the recording speaker and clearing the pending one. */
    method TryAttachAudio(speakerId: string) returns (attached: bool)
      requires Valid() && IsMember(members, speakerId) && speakerId != ""
      modifies this`recordingSpeaker, this`pendingSpeaker, this`audioStream, this`recordingActive
      ensures Valid()
      ensures attached <==> speakerId in audible
      ensures attached ==> recordingSpeaker == Some(speakerId) && audioStream == Some(speakerId) &&
                           pendingSpeaker == None && recordingActive
      ensures !attached ==> recordingSpeaker == old(recordingSpeaker) && pendingSpeaker == old(pendingSpeaker) &&
                            audioStream == old(audioStream) && recordingActive == old(recordingActive)
    {
      attached := speakerId in audible;
      if attached {
        audioStream := Some(speakerId);
        recordingSpeaker := Some(speakerId);
        pendingSpeaker := None;
        recordingActive := true;
      }
    }

    /** `on_track_subscribed`: the transport has recorded the new track; an
        audio track from the awaited speaker is attached at once. */
    method OnTrackSubscribed(identity: string, isAudio: bool)
      requires Valid()
      modifies this
      ensures Valid()
      ensures published == old(published)
      ensures !isAudio ==> audible == old(audible) && recordingSpeaker == old(recordingSpeaker) &&
                           pendingSpeaker == old(pendingSpeaker) && audioStream == old(audioStream) &&
                           recordingActive == old(recordingActive)
      ensures isAudio ==> audible == old(audible) + {identity}
      ensures isAudio && old(pendingSpeaker) == Some(identity) ==>
                recordingSpeaker == Some(identity) && audioStream == Some(identity) &&
                pendingSpeaker == None && recordingActive
      ensures old(pendingSpeaker) != Some(identity) ==>
                recordingSpeaker == old(recordingSpeaker) && pendingSpeaker == old(pendingSpeaker) &&
                audioStream == old(audioStream) && recordingActive == old(recordingActive)
    {
      if !isAudio {
        return;
      }
      audible := audible + {identity};
      if pendingSpeaker.Some? && pendingSpeaker.value != "" && identity == pendingSpeaker.value {
        var attached := TryAttachAudio(pendingSpeaker.value);
      }
    }

    /** `on_data_received`: RECORDING_START from a member attaches that
        member's audio or, lacking a track, marks the member as awaited;
        RECORDING_STOP drops the awaited member and ends the recording but
        keeps the recording speaker. Nothing else changes any state. */
    method OnDataReceived(topic: string, raw: Signals.Json)
      requires Valid()
      modifies this`recordingSpeaker, this`pendingSpeaker, this`audioStream, this`recordingActive
      ensures Valid()
      ensures var (sig, payload) := Signals.DecodeSignal(raw);
              var speaker := Get(payload, "userId");
              if topic != Signals.Topic ||
                 !(sig == Some(Signals.RecordingStart) || sig == Some(Signals.RecordingStop)) ||
                 (sig == Some(Signals.RecordingStart) &&
                  (speaker.None? || speaker.value == "" || !IsMember(members, speaker.value)))
              then
                recordingSpeaker == old(recordingSpeaker) && pendingSpeaker == old(pendingSpeaker) &&
                audioStream == old(audioStream) && recordingActive == old(recordingActive)
              else if sig == Some(Signals.RecordingStop) then
                pendingSpeaker == None && !recordingActive &&
                recordingSpeaker == old(recordingSpeaker) && audioStream == old(audioStream)
              else if speaker.value in audible then
                recordingSpeaker == speaker && audioStream == speaker && pendingSpeaker == None && recordingActive
              else
                pendingSpeaker == speaker && recordingSpeaker == old(recordingSpeaker) &&
                audioStream == old(audioStream) && recordingActive == old(recordingActive)
    {
      if topic != Signals.Topic {
        return;
      }
      var (sig, payload) := Signals.DecodeSignal(raw);
      if sig == Some(Signals.RecordingStart) {
        var speaker := Get(payload, "userId");
        if speaker.Some? && speaker.value != "" && IsMember(members, speaker.value) {
          var attached := TryAttachAudio(speaker.value);
          if !attached {
            pendingSpeaker := speaker;
          }
        }
      } else if sig == Some(Signals.RecordingStop) {
        pendingSpeaker := None;
        recordingActive := false;
      }
    }

    /** `on_participant_disconnected`: the participant leaves the room; if it
        was recording, the recording ends, and if it was awaited, it no longer is. */
    method OnParticipantDisconnected(identity: string)
      requires Valid()
      modifies this`audible, this`recordingSpeaker, this`pendingSpeaker, this`recordingActive
      ensures Valid()
      ensures audible == old(audible) - {identity}
      ensures old(recordingSpeaker) == Some(identity) ==> recordingSpeaker == None && !recordingActive
      ensures old(recordingSpeaker) != Some(identity) ==>
                recordingSpeaker == old(recordingSpeaker) && recordingActive == old(recordingActive)
      ensures pendingSpeaker == if old(pendingSpeaker) == Some(identity) then None else old(pendingSpeaker)
    {
      audible := audible - {identity};
      if recordingSpeaker == Some(identity) {
        recordingActive := false;
        recordingSpeaker := None;
      }
      if pendingSpeaker == Some(identity) {
        pendingSpeaker := None;
      }
    }

    /** One pass of the agent's loop once `recording_active` is set: a turn
        for the recording speaker, whose signals are published in order
        (with ERROR "Translation failed" if the turn raises after `failAfter`
        of them), after which speaker, stream and pending speaker are reset.
        Without a speaker or stream the event is just cleared. */
    method RunTurn(chunks: seq<string>, translate: (string, string, string) -> string, failAfter: Option<nat>)
      requires Valid()
      modifies this`published, this`recordingSpeaker, this`audioStream, this`pendingSpeaker, this`recordingActive
      ensures Valid()
      ensures audible == old(audible)
      ensures !old(recordingActive) ==>
                recordingSpeaker == old(recordingSpeaker) && pendingSpeaker == old(pendingSpeaker) &&
                audioStream == old(audioStream) && !recordingActive && published == old(published)
      ensures old(recordingActive) && (old(recordingSpeaker).None? || old(audioStream).None?) ==>
                recordingSpeaker == old(recordingSpeaker) && pendingSpeaker == old(pendingSpeaker) &&
                audioStream == old(audioStream) && !recordingActive && published == old(published)
      ensures old(recordingActive) && old(recordingSpeaker).Some? && old(audioStream).Some? ==>
                published == old(published) + TurnMessages(members, old(recordingSpeaker).value, chunks, translate, failAfter) &&
                recordingSpeaker == None && audioStream == None && pendingSpeaker == None &&
                recordingActive == old(recordingActive)
    {
      if !recordingActive {
      } else if recordingSpeaker.None? || audioStream.None? {
        recordingActive := false;
      } else {
        TakeTurn(chunks, translate, failAfter);
      }
    }

    /** The turn branch of `RunTurn`: publish the speaker's turn, then reset
        speaker, stream and pending speaker. */
    method TakeTurn(chunks: seq<string>, translate: (string, string, string) -> string, failAfter: Option<nat>)
      requires Valid() && recordingSpeaker.Some? && audioStream.Some?
      modifies this`published, this`recordingSpeaker, this`audioStream, this`pendingSpeaker
      ensures Valid()
      ensures published == old(published) + TurnMessages(members, old(recordingSpeaker).value, chunks, translate, failAfter)
      ensures recordingSpeaker == None && audioStream == None && pendingSpeaker == None
    {
      var speaker := recordingSpeaker.value;
      var sent := PublishTurn(members, speaker, chunks, translate, failAfter);
      published := published + sent;
      recordingSpeaker := None;
      audioStream := None;
      pendingSpeaker := None;
    }
  }
}
