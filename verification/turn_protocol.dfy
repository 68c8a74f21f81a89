/** The two halves of the walkie-talkie protocol put together: the data
    messages one turn of the agent (backend/app/voice/service.py) publishes,
    as received and reduced by a client (frontend/src/hooks/useWalkieTalkie.ts). */
module TurnProtocol {
  import opened Wrappers
  import Signals
  import opened WalkieReducer
  import WalkieHook
  import VoiceAgent

  /** The client store after one inbound message on the walkie-talkie topic. */
  function Receive(store: Store, data: Signals.Json, userId: string, now: int): Store {
    match WalkieHook.Inbound(Signals.Topic, data, userId, store.activeSpeakerId)
    case Some(a) => Reduce(store, a, now)
    case None => store
  }

  /** The client store after the messages, oldest first, all at time `now`. */
  function ReceiveAll(store: Store, msgs: seq<Signals.Json>, userId: string, now: int): Store
    decreases |msgs|
  {
    if msgs == [] then store
    else Receive(ReceiveAll(store, msgs[..|msgs| - 1], userId, now), msgs[|msgs| - 1], userId, now)
  }

  lemma ReceiveAllSnoc(store: Store, msgs: seq<Signals.Json>, m: Signals.Json, userId: string, now: int)
    ensures ReceiveAll(store, msgs + [m], userId, now) == Receive(ReceiveAll(store, msgs, userId, now), m, userId, now)
  {
    assert (msgs + [m])[..|msgs|] == msgs;
  }

  lemma InboundProcessing(userId: string, active: Option<string>)
    ensures WalkieHook.Inbound(Signals.Topic, Signals.Encoded(Signals.Processing, []), userId, active)
              == Some(ProcessingStarted)
  {
    Signals.EncodedDiscriminant(Signals.Processing, []);
  }

  lemma InboundComplete(userId: string, active: Option<string>)
    ensures WalkieHook.Inbound(Signals.Topic, Signals.Encoded(Signals.TtsComplete, []), userId, active)
              == Some(TtsComplete)
  {
    Signals.EncodedDiscriminant(Signals.TtsComplete, []);
  }

  lemma InboundFailed(userId: string, active: Option<string>)
    ensures WalkieHook.Inbound(Signals.Topic, Signals.Encoded(Signals.Error, [("message", "Translation failed")]), userId, active)
              == Some(ErrorSignal("Translation failed"))
  {
    var failed: Signals.Kwargs := [("message", "Translation failed")];
    assert Signals.NoSignalKey(failed) && Signals.MappedDistinct(failed);
    Signals.EncodedDiscriminant(Signals.Error, failed);
    Signals.EncodedField(Signals.Error, failed, 0);
  }

  lemma InboundPlaying(userId: string, active: Option<string>, original: string, translated: string)
    ensures WalkieHook.Inbound(Signals.Topic,
                               Signals.Encoded(Signals.TtsPlaying, [("original_text", original), ("translated_text", translated)]),
                               userId, active)
              == Some(TtsPlaying(original, translated, active.GetOr("")))
  {
    var texts: Signals.Kwargs := [("original_text", original), ("translated_text", translated)];
    assert Signals.NoSignalKey(texts) && Signals.MappedDistinct(texts);
    Signals.EncodedDiscriminant(Signals.TtsPlaying, texts);
    Signals.EncodedField(Signals.TtsPlaying, texts, 0);
    Signals.EncodedField(Signals.TtsPlaying, texts, 1);
  }

  /** What the client makes of each signal the agent publishes. */
  lemma InboundOfAgentSignals(userId: string, active: Option<string>, original: string, translated: string)
    ensures WalkieHook.Inbound(Signals.Topic, Signals.Encoded(Signals.Processing, []), userId, active)
              == Some(ProcessingStarted)
    ensures WalkieHook.Inbound(Signals.Topic, Signals.Encoded(Signals.TtsComplete, []), userId, active)
              == Some(TtsComplete)
    ensures WalkieHook.Inbound(Signals.Topic, Signals.Encoded(Signals.Error, [("message", "Translation failed")]), userId, active)
              == Some(ErrorSignal("Translation failed"))
    ensures WalkieHook.Inbound(Signals.Topic,
                               Signals.Encoded(Signals.TtsPlaying, [("original_text", original), ("translated_text", translated)]),
                               userId, active)
              == Some(TtsPlaying(original, translated, active.GetOr("")))
  {
    InboundProcessing(userId, active);
    InboundComplete(userId, active);
    InboundFailed(userId, active);
    InboundPlaying(userId, active, original, translated);
  }

  const ProcessingMsg: Signals.Json := Signals.Encoded(Signals.Processing, [])
  const CompleteMsg: Signals.Json := Signals.Encoded(Signals.TtsComplete, [])
  const FailedMsg: Signals.Json := Signals.Encoded(Signals.Error, [("message", "Translation failed")])

  function PlayingMsg(original: string, translated: string): Signals.Json {
    Signals.Encoded(Signals.TtsPlaying, [("original_text", original), ("translated_text", translated)])
  }

  /** TTS_COMPLETE alone: the client goes idle and forgets the speaker. */
  lemma ReceiveUntranslatedTurn(store: Store, userId: string, now: int)
    ensures ReceiveAll(store, [CompleteMsg], userId, now) == store.(state := Idle, activeSpeakerId := None)
  {
    InboundOfAgentSignals(userId, store.activeSpeakerId, "", "");
    ReceiveAllSnoc(store, [], CompleteMsg, userId, now);
  }

  /** PROCESSING, TTS_PLAYING, TTS_COMPLETE: one entry, credited to the
      speaker the client recorded, then idle. */
  lemma ReceiveTranslatedTurn(store: Store, original: string, translated: string, userId: string, now: int)
    ensures ReceiveAll(store, [ProcessingMsg, PlayingMsg(original, translated), CompleteMsg], userId, now)
            == store.(state := Idle, activeSpeakerId := None,
                      transcripts := store.transcripts +
                        [TranscriptEntry(original, translated, store.activeSpeakerId.GetOr(""), now)])
  {
    InboundOfAgentSignals(userId, store.activeSpeakerId, original, translated);
    var s1 := Reduce(store, ProcessingStarted, now);
    var s2 := Reduce(s1, TtsPlaying(original, translated, store.activeSpeakerId.GetOr("")), now);
    ReceiveAllSnoc(store, [], ProcessingMsg, userId, now);
    ReceiveAllSnoc(store, [ProcessingMsg], PlayingMsg(original, translated), userId, now);
    ReceiveAllSnoc(store, [ProcessingMsg, PlayingMsg(original, translated)], CompleteMsg, userId, now);
    assert [ProcessingMsg] == [] + [ProcessingMsg];
    assert [ProcessingMsg, PlayingMsg(original, translated)] == [ProcessingMsg] + [PlayingMsg(original, translated)];
    assert [ProcessingMsg, PlayingMsg(original, translated), CompleteMsg]
        == [ProcessingMsg, PlayingMsg(original, translated)] + [CompleteMsg];
  }

  /** The signals of a turn with a listener, as the client receives them. */
  lemma ReceiveListenerSignals(store: Store, src: string, dst: string, text: string,
                               translate: (string, string, string) -> string, userId: string, now: int)
    ensures var out := VoiceAgent.ListenerSignals(src, dst, text, translate);
            ReceiveAll(store, VoiceAgent.EncodeAll(out), userId, now) ==
              store.(state := Idle, activeSpeakerId := None,
                     transcripts := store.transcripts +
                       if |out| == 1 then [] else [TranscriptEntry(text, translate(text, src, dst),
                                                                   store.activeSpeakerId.GetOr(""), now)])
  {
    var out := VoiceAgent.ListenerSignals(src, dst, text, translate);
    var msgs := VoiceAgent.EncodeAll(out);
    if |out| == 1 {
      assert msgs == [CompleteMsg];
      ReceiveUntranslatedTurn(store, userId, now);
    } else {
      assert msgs == [ProcessingMsg, PlayingMsg(text, translate(text, src, dst)), CompleteMsg];
      ReceiveTranslatedTurn(store, text, translate(text, src, dst), userId, now);
    }
  }

  /** A completed turn hands every client the turn back: idle, nobody
      speaking, the error untouched, and exactly one new transcript entry
      (the transcript, its translation, the speaker the client had recorded)
      when the turn translated something, none otherwise. A turn that says
      nothing leaves the client as it was. */
  lemma CompletedTurnOnClient(members: seq<VoiceAgent.Member>, speakerId: string, chunks: seq<string>,
                              translate: (string, string, string) -> string,
                              store: Store, userId: string, now: int)
    requires VoiceAgent.IsMember(members, speakerId)
    ensures var out := VoiceAgent.TurnSignals(members, speakerId, chunks, translate);
            var r := ReceiveAll(store, VoiceAgent.EncodeAll(out), userId, now);
            (out == [] ==> r == store) &&
            (out != [] ==>
               r.state == Idle && r.activeSpeakerId == None && r.error == store.error &&
               r.transcripts == store.transcripts +
                 if |out| == 1 then []
                 else [TranscriptEntry(VoiceAgent.Transcript(chunks),
                                       translate(VoiceAgent.Transcript(chunks),
                                                 VoiceAgent.Language(VoiceAgent.FindMember(members, speakerId)),
                                                 VoiceAgent.Language(VoiceAgent.Listener(members, speakerId).value)),
                                       store.activeSpeakerId.GetOr(""), now)])
  {
    var listener := VoiceAgent.Listener(members, speakerId);
    if listener.Some? && listener.value.userId != "" {
      ReceiveListenerSignals(store, VoiceAgent.Language(VoiceAgent.FindMember(members, speakerId)),
                             VoiceAgent.Language(listener.value), VoiceAgent.Transcript(chunks), translate, userId, now);
    }
  }

  /** A run of messages that closes with TTS_COMPLETE or the failure report
      leaves the client idle with nobody speaking; the failure report shows. */
  lemma ReceiveClosedRun(store: Store, msgs: seq<Signals.Json>, userId: string, now: int)
    requires msgs != [] && (msgs[|msgs| - 1] == CompleteMsg || msgs[|msgs| - 1] == FailedMsg)
    ensures var r := ReceiveAll(store, msgs, userId, now);
            r.state == Idle && r.activeSpeakerId == None &&
            (msgs[|msgs| - 1] == FailedMsg ==> r.error == Some("Translation failed"))
  {
    var init := msgs[..|msgs| - 1];
    var last := msgs[|msgs| - 1];
    assert msgs == init + [last];
    ReceiveAllSnoc(store, init, last, userId, now);
    InboundOfAgentSignals(userId, ReceiveAll(store, init, userId, now).activeSpeakerId, "", "");
  }

  /** Whether the turn completes or fails part way, a client that receives
      everything it publishes ends idle with nobody speaking; after a failure
      it shows "Translation failed". */
  lemma AnyTurnReleasesClient(members: seq<VoiceAgent.Member>, speakerId: string, chunks: seq<string>,
                              translate: (string, string, string) -> string, failAfter: Option<nat>,
                              store: Store, userId: string, now: int)
    requires VoiceAgent.IsMember(members, speakerId)
    ensures var out := VoiceAgent.TurnOutput(VoiceAgent.TurnSignals(members, speakerId, chunks, translate), failAfter);
            var r := ReceiveAll(store, VoiceAgent.EncodeAll(out), userId, now);
            out != [] ==>
              r.state == Idle && r.activeSpeakerId == None &&
              (out[|out| - 1] == VoiceAgent.TranslationFailed ==> r.error == Some("Translation failed"))
  {
    var out := VoiceAgent.TurnOutput(VoiceAgent.TurnSignals(members, speakerId, chunks, translate), failAfter);
    VoiceAgent.TurnEndsClosed(members, speakerId, chunks, translate, failAfter);
    if out != [] {
      var msgs := VoiceAgent.EncodeAll(out);
      assert msgs[|msgs| - 1] == Signals.Encoded(out[|out| - 1].signal, out[|out| - 1].kwargs);
      ReceiveClosedRun(store, msgs, userId, now);
    }
  }
}
