/** The `useWalkieTalkie` hook of frontend/src/hooks/useWalkieTalkie.ts: the
    inbound-signal filter, the guarded start/stop/toggle commands and the
    single `timeoutRef` slot. The store is updated through WalkieReducer.Reduce;
    the room's microphone and data channel are recorded as a flag and as the
    list of objects sent. `startRecording`, `stopRecording` and
    `toggleRecording` run with their awaits as one step, one command or event
    at a time, and `setMicrophoneEnabled` and `publishData` always succeed. */
module WalkieHook {
  import opened Wrappers
  import Signals
  import opened WalkieReducer

  /** Both timers the hook arms last 30 seconds. */
  const TimeoutMs: nat := 30000
  const TimedOutMessage: string := "Translation timed out"
  const DefaultErrorMessage: string := "An error occurred"

  /** `data.key || fallback` on a parsed payload: an absent or empty string
      yields the fallback. */
  function FieldOr(data: Signals.Json, key: string, fallback: string): (r: string)
    ensures key in data && data[key] != "" ==> r == data[key]
    ensures key !in data || data[key] == "" ==> r == fallback
  {
    if key in data && data[key] != "" then data[key] else fallback
  }

  /** The action `handleDataReceived` dispatches for one inbound message, if any.
      `active` is the store's current `activeSpeakerId`. */
  function Inbound(topic: string, data: Signals.Json, userId: string, active: Option<string>): (r: Option<Action>)
    // messages on any other topic are ignored
    ensures topic != Signals.Topic ==> r == None
    // only a message whose `signal` field is one of the five handled values dispatches
    ensures r.Some? ==>
              Signals.SignalField in data &&
              data[Signals.SignalField] in {"RECORDING_START", "PROCESSING", "TTS_PLAYING", "TTS_COMPLETE", "ERROR"}
    // the local user's own RECORDING_START echo is ignored; another user's takes the turn
    ensures r.Some? && r.value.RecordingStart? ==> r.value.userId == Get(data, "userId") && r.value.userId != Some(userId)
    // played texts default to "", the speaker is the current owner (or "")
    ensures r.Some? && r.value.TtsPlaying? ==>
              r.value.originalText == FieldOr(data, "originalText", "") &&
              r.value.translatedText == FieldOr(data, "translatedText", "") &&
              r.value.speakerId == active.GetOr("")
    ensures r.Some? && r.value.ErrorSignal? ==> r.value.message == FieldOr(data, "message", DefaultErrorMessage)
    // the hook never dispatches RECORDING_STOP, CLEAR_ERROR or an unknown type from the network
    ensures r.Some? ==> !r.value.RecordingStop? && !r.value.ClearError? && !r.value.Unrecognised?
    // a message without a discriminant dispatches nothing
    ensures Signals.SignalField !in data ==> r == None
    // each handled discriminant on the topic dispatches its action
    ensures topic == Signals.Topic && Signals.SignalField in data && data[Signals.SignalField] == "RECORDING_START" ==>
              r == if Get(data, "userId") == Some(userId) then None else Some(RecordingStart(Get(data, "userId")))
    ensures topic == Signals.Topic && Signals.SignalField in data && data[Signals.SignalField] == "PROCESSING" ==>
              r == Some(ProcessingStarted)
    ensures topic == Signals.Topic && Signals.SignalField in data && data[Signals.SignalField] == "TTS_PLAYING" ==>
              r == Some(TtsPlaying(FieldOr(data, "originalText", ""), FieldOr(data, "translatedText", ""), active.GetOr("")))
    ensures topic == Signals.Topic && Signals.SignalField in data && data[Signals.SignalField] == "TTS_COMPLETE" ==>
              r == Some(TtsComplete)
    ensures topic == Signals.Topic && Signals.SignalField in data && data[Signals.SignalField] == "ERROR" ==>
              r == Some(ErrorSignal(FieldOr(data, "message", DefaultErrorMessage)))
  {
    if topic != Signals.Topic || Signals.SignalField !in data then None
    else
      var signal := data[Signals.SignalField];
      if signal == "RECORDING_START" then
        if Get(data, "userId") != Some(userId) then Some(RecordingStart(Get(data, "userId"))) else None
      else if signal == "PROCESSING" then Some(ProcessingStarted)
      else if signal == "TTS_PLAYING" then
        Some(TtsPlaying(FieldOr(data, "originalText", ""), FieldOr(data, "translatedText", ""), active.GetOr("")))
      else if signal == "TTS_COMPLETE" then Some(TtsComplete)
      else if signal == "ERROR" then Some(ErrorSignal(FieldOr(data, "message", DefaultErrorMessage)))
      else None
  }

  /** RECORDING_STOP and unknown signal values dispatch nothing, whatever the store. */
  lemma IgnoredSignals(data: Signals.Json, userId: string, active: Option<string>)
    requires Signals.SignalField in data
    requires data[Signals.SignalField] !in {"RECORDING_START", "PROCESSING", "TTS_PLAYING", "TTS_COMPLETE", "ERROR"}
    ensures Inbound(Signals.Topic, data, userId, active) == None
  {
  }

  /** `sendSignal`: `{signal, ...payload}`, payload fields written after the discriminant. */
  function ClientSignal(signal: string, payload: Signals.Json): (r: Signals.Json)
    ensures r.Keys == {Signals.SignalField} + payload.Keys
    ensures Signals.SignalField !in payload ==> r[Signals.SignalField] == signal
    ensures forall k :: k in payload ==> r[k] == payload[k]
  {
    map[Signals.SignalField := signal] + payload
  }

  /** Which timer fired: the 30 s recording limit armed by `startRecording`,
      or the processing limit armed by `stopRecording`, which dispatches ERROR. */
  datatype TimerTask = AutoStop | TimeOut

  datatype Timer = Timer(delayMs: nat, task: TimerTask)

  class WalkieTalkie {
    const userId: string
    /** False when the hook is given no room: nothing is subscribed and every command returns at once. */
    const hasRoom: bool
    var store: Store
    var micEnabled: bool
    /** Every data message published on the walkie-talkie topic, oldest first. */
    var sent: seq<Signals.Json>
    /** `timeoutRef.current`: the handle of the last timer armed, until cleared. */
    var timeoutRef: Option<nat>
    /** Timers scheduled and neither cleared nor fired, by handle. */
    var timers: map<nat, Timer>
    var nextHandle: nat

    ghost predicate Valid()
      reads this
    {
      (forall h :: h in timers ==> h < nextHandle) &&
      (timeoutRef.Some? ==> timeoutRef.value < nextHandle)
    }

    /** The intended single-slot discipline: the only live timer, if any, is
        the one `timeoutRef` holds, so clearing the slot cancels every timer. */
    predicate AtMostOneTimer()
      reads this
    {
      forall h :: h in timers ==> timeoutRef == Some(h)
    }

    /** `isMyTurn`. */
    function IsMyTurn(): bool
      reads this
    {
      store.activeSpeakerId == Some(userId)
    }

    /** `canSpeak`. */
    function CanSpeak(): bool
      reads this
    {
      store.state == Idle
    }

    /** While the owner/idle invariant holds, a client that can speak does
        not own the turn, and one that owns the turn cannot start another. */
    lemma CanSpeakExcludesMyTurn()
      requires OwnerIffIdle(store)
      ensures CanSpeak() ==> !IsMyTurn()
      ensures IsMyTurn() ==> !CanSpeak()
    {
    }

    constructor (userId: string, hasRoom: bool)
      ensures Valid() && AtMostOneTimer()
      ensures this.userId == userId && this.hasRoom == hasRoom
      ensures store == InitialStore && !micEnabled && sent == []
      ensures timeoutRef == None && timers == map[] && nextHandle == 0
    {
      this.userId := userId;
      this.hasRoom := hasRoom;
      store := InitialStore;
      micEnabled := false;
      sent := [];
      timeoutRef := None;
      timers := map[];
      nextHandle := 0;
    }

    /** `timeoutRef.current = setTimeout(task, TimeoutMs)`. */
    method ArmSlot(task: TimerTask)
      requires Valid()
      modifies this`timers, this`timeoutRef, this`nextHandle
      ensures Valid()
      ensures old(nextHandle) !in old(timers)
      ensures timeoutRef == Some(old(nextHandle))
      ensures timers == old(timers)[old(nextHandle) := Timer(TimeoutMs, task)]
      ensures nextHandle == old(nextHandle) + 1
    {
      timers := timers[nextHandle := Timer(TimeoutMs, task)];
      timeoutRef := Some(nextHandle);
      nextHandle := nextHandle + 1;
    }

    /** `if (timeoutRef.current) { clearTimeout(timeoutRef.current); timeoutRef.current = null; }` */
    method ClearSlot()
      requires Valid()
      modifies this`timers, this`timeoutRef
      ensures Valid()
      ensures timeoutRef == None
      ensures timers == if old(timeoutRef).Some? then old(timers) - {old(timeoutRef).value} else old(timers)
      ensures old(AtMostOneTimer()) ==> timers == map[]
    {
      if timeoutRef.Some? {
        timers := timers - {timeoutRef.value};
        timeoutRef := None;
      }
    }

    /** `startRecording`: only from idle; enables the microphone, announces
        the turn, takes it locally and arms the 30 s auto-stop timer, writing
        its handle over whatever `timeoutRef` held. */
    method StartRecording(now: int)
      requires Valid()
      modifies this
      ensures Valid()
      ensures old(store.state) != Idle || !hasRoom ==>
                store == old(store) && micEnabled == old(micEnabled) && sent == old(sent) &&
                timeoutRef == old(timeoutRef) && timers == old(timers)
      ensures old(store.state) == Idle && hasRoom ==>
                micEnabled &&
                sent == old(sent) + [ClientSignal("RECORDING_START", map["userId" := userId])] &&
                store == Reduce(old(store), RecordingStart(Some(userId)), now) &&
                timeoutRef == Some(old(nextHandle)) && old(nextHandle) !in old(timers) &&
                timers == old(timers)[old(nextHandle) := Timer(TimeoutMs, AutoStop)]
      ensures nextHandle == old(nextHandle) + (if old(store.state) == Idle && hasRoom then 1 else 0)
      // the slot discipline survives only when no earlier timer is still live
      ensures old(timers) == map[] ==> AtMostOneTimer()
    {
      if store.state != Idle || !hasRoom {
        return;
      }
      micEnabled := true;
      sent := sent + [ClientSignal("RECORDING_START", map["userId" := userId])];
      store := Reduce(store, RecordingStart(Some(userId)), now);
      ArmSlot(AutoStop);
    }

    /** `startRecording` with the slot cleared before it is re-armed, as
        `stopRecording` already does: the single-timer discipline then holds
        after every command. */
    method StartRecordingClearingSlot(now: int)
      requires Valid()
      modifies this
      ensures Valid()
      ensures old(AtMostOneTimer()) ==> AtMostOneTimer()
      ensures old(store.state) != Idle || !hasRoom ==>
                store == old(store) && micEnabled == old(micEnabled) && sent == old(sent) &&
                timeoutRef == old(timeoutRef) && timers == old(timers)
      ensures old(store.state) == Idle && hasRoom ==>
                micEnabled &&
                sent == old(sent) + [ClientSignal("RECORDING_START", map["userId" := userId])] &&
                store == Reduce(old(store), RecordingStart(Some(userId)), now) &&
                timeoutRef == Some(old(nextHandle)) && old(nextHandle) !in old(timers) &&
                timers == (if old(timeoutRef).Some? then old(timers) - {old(timeoutRef).value} else old(timers))
                          [old(nextHandle) := Timer(TimeoutMs, AutoStop)]
      ensures nextHandle == old(nextHandle) + (if old(store.state) == Idle && hasRoom then 1 else 0)
    {
      if store.state != Idle || !hasRoom {
        return;
      }
      ClearSlot();
      micEnabled := true;
      sent := sent + [ClientSignal("RECORDING_START", map["userId" := userId])];
      store := Reduce(store, RecordingStart(Some(userId)), now);
      ArmSlot(AutoStop);
    }

    /** `stopRecording`: only while recording; cancels the slot's timer,
        disables the microphone, announces the stop, moves to processing and
        arms the 30 s timer that reports "Translation timed out". */
    method StopRecording(now: int)
      requires Valid()
      modifies this
      ensures Valid()
      ensures old(AtMostOneTimer()) ==> AtMostOneTimer()
      ensures old(store.state) != Recording || !hasRoom ==>
                store == old(store) && micEnabled == old(micEnabled) && sent == old(sent) &&
                timeoutRef == old(timeoutRef) && timers == old(timers)
      ensures old(store.state) == Recording && hasRoom ==>
                !micEnabled &&
                sent == old(sent) + [ClientSignal("RECORDING_STOP", map["userId" := userId])] &&
                store == Reduce(old(store), RecordingStop, now) &&
                timeoutRef == Some(old(nextHandle)) && old(nextHandle) !in old(timers) &&
                timers == (if old(timeoutRef).Some? then old(timers) - {old(timeoutRef).value} else old(timers))
                          [old(nextHandle) := Timer(TimeoutMs, TimeOut)]
      ensures nextHandle == old(nextHandle) + (if old(store.state) == Recording && hasRoom then 1 else 0)
    {
      if store.state != Recording || !hasRoom {
        return;
      }
      ClearSlot();
      micEnabled := false;
      sent := sent + [ClientSignal("RECORDING_STOP", map["userId" := userId])];
      store := Reduce(store, RecordingStop, now);
      ArmSlot(TimeOut);
    }

    /** `toggleRecording`: starts a turn from idle, ends one only while
        recording a turn this user owns, and otherwise does nothing. */
    method ToggleRecording(now: int)
      requires Valid()
      modifies this
      ensures Valid()
      ensures old(store.state) == Idle && hasRoom ==>
                micEnabled && store.state == Recording && IsMyTurn() &&
                sent == old(sent) + [ClientSignal("RECORDING_START", map["userId" := userId])] &&
                store == Reduce(old(store), RecordingStart(Some(userId)), now) &&
                timeoutRef == Some(old(nextHandle)) && old(nextHandle) !in old(timers) &&
                timers == old(timers)[old(nextHandle) := Timer(TimeoutMs, AutoStop)] &&
                nextHandle == old(nextHandle) + 1
      ensures old(store.state) == Recording && old(IsMyTurn()) && hasRoom ==>
                !micEnabled && store.state == Processing && IsMyTurn() &&
                sent == old(sent) + [ClientSignal("RECORDING_STOP", map["userId" := userId])] &&
                store == Reduce(old(store), RecordingStop, now) &&
                timeoutRef == Some(old(nextHandle)) && old(nextHandle) !in old(timers) &&
                timers == (if old(timeoutRef).Some? then old(timers) - {old(timeoutRef).value} else old(timers))
                          [old(nextHandle) := Timer(TimeoutMs, TimeOut)] &&
                nextHandle == old(nextHandle) + 1
      ensures !(old(store.state) == Idle || (old(store.state) == Recording && old(IsMyTurn()))) || !hasRoom ==>
                store == old(store) && micEnabled == old(micEnabled) && sent == old(sent) &&
                timeoutRef == old(timeoutRef) && timers == old(timers) && nextHandle == old(nextHandle)
      ensures store.transcripts == old(store.transcripts)
    {
      if store.state == Idle {
        StartRecording(now);
      } else if store.state == Recording && store.activeSpeakerId == Some(userId) {
        StopRecording(now);
      }
    }

    /** `clearError`: only the displayed error changes. */
    method ClearErrorCommand(now: int)
      requires Valid()
      modifies this`store
      ensures Valid()
      ensures store == old(store).(error := None)
    {
      store := Reduce(store, ClearError, now);
    }

    /** `handleDataReceived`: dispatches what `Inbound` selects; TTS_COMPLETE
        also clears the timer slot, and nothing else touches the timers. */
    method HandleDataReceived(topic: string, data: Signals.Json, now: int)
      requires Valid()
      modifies this`store, this`timers, this`timeoutRef
      ensures Valid()
      ensures old(AtMostOneTimer()) ==> AtMostOneTimer()
      ensures !hasRoom ==> store == old(store) && timers == old(timers) && timeoutRef == old(timeoutRef)
      ensures hasRoom ==>
                store == match Inbound(topic, data, userId, old(store.activeSpeakerId))
                         case Some(a) => Reduce(old(store), a, now)
                         case None => old(store)
      ensures hasRoom && Inbound(topic, data, userId, old(store.activeSpeakerId)) == Some(TtsComplete) ==>
                timeoutRef == None &&
                timers == if old(timeoutRef).Some? then old(timers) - {old(timeoutRef).value} else old(timers)
      ensures !(hasRoom && Inbound(topic, data, userId, old(store.activeSpeakerId)) == Some(TtsComplete)) ==>
                timers == old(timers) && timeoutRef == old(timeoutRef)
    {
      if !hasRoom {
        return;
      }
      var action := Inbound(topic, data, userId, store.activeSpeakerId);
      if action.Some? {
        store := Reduce(store, action.value, now);
      }
      if action == Some(TtsComplete) {
        ClearSlot();
      }
    }

    /** A live timer fires, as written: it leaves the live set (the slot
        keeps its stale handle) and runs its callback. The recording limit
        calls the `stopRecording` captured when `startRecording` was created,
        a render in which the state was `idle`; that copy's guard always
        returns, so the recording limit has no effect. */
    method FireTimer(handle: nat, now: int)
      requires Valid()
      modifies this`store, this`timers
      ensures Valid()
      ensures old(AtMostOneTimer()) ==> AtMostOneTimer()
      ensures handle !in old(timers) ==> store == old(store) && timers == old(timers)
      ensures handle in old(timers) && old(timers)[handle].task == TimeOut ==>
                store == Reduce(old(store), ErrorSignal(TimedOutMessage), now) && timers == old(timers) - {handle}
      ensures handle in old(timers) && old(timers)[handle].task == AutoStop ==>
                store == old(store) && timers == old(timers) - {handle}
    {
      if handle !in timers {
        return;
      }
      var timer := timers[handle];
      timers := timers - {handle};
      if timer.task == TimeOut {
        store := Reduce(store, ErrorSignal(TimedOutMessage), now);
      }
    }

    /** A live timer fires, with the recording limit reaching the current
        `stopRecording`: a recording still running after 30 s is stopped. */
    method FireTimerFresh(handle: nat, now: int)
      requires Valid()
      modifies this
      ensures Valid()
      ensures old(AtMostOneTimer()) ==> AtMostOneTimer()
      ensures handle !in old(timers) ==>
                store == old(store) && micEnabled == old(micEnabled) && sent == old(sent) &&
                timeoutRef == old(timeoutRef) && timers == old(timers) && nextHandle == old(nextHandle)
      ensures handle in old(timers) && old(timers)[handle].task == TimeOut ==>
                store == Reduce(old(store), ErrorSignal(TimedOutMessage), now) &&
                micEnabled == old(micEnabled) && sent == old(sent) &&
                timeoutRef == old(timeoutRef) && timers == old(timers) - {handle} && nextHandle == old(nextHandle)
      // the recording limit with nothing to stop (no recording, or no room) only leaves the live set
      ensures handle in old(timers) && old(timers)[handle].task == AutoStop && (old(store.state) != Recording || !hasRoom) ==>
                store == old(store) && micEnabled == old(micEnabled) && sent == old(sent) &&
                timeoutRef == old(timeoutRef) && timers == old(timers) - {handle} && nextHandle == old(nextHandle)
      // stopping a running recording cancels the slot's timer and arms the processing timeout in the slot
      ensures handle in old(timers) && old(timers)[handle].task == AutoStop && old(store.state) == Recording && hasRoom ==>
                store == Reduce(old(store), RecordingStop, now) && !micEnabled &&
                sent == old(sent) + [ClientSignal("RECORDING_STOP", map["userId" := userId])] &&
                timeoutRef == Some(old(nextHandle)) && nextHandle == old(nextHandle) + 1 &&
                timers == (if old(timeoutRef).Some? then old(timers) - {handle} - {old(timeoutRef).value}
                           else old(timers) - {handle})[old(nextHandle) := Timer(TimeoutMs, TimeOut)]
    {
      if handle !in timers {
        return;
      }
      var timer := timers[handle];
      timers := timers - {handle};
      match timer.task {
        case AutoStop => StopRecording(now);
        case TimeOut => store := Reduce(store, ErrorSignal(TimedOutMessage), now);
      }
    }
  }

  /** As written, a recording left running hits its 30 s limit and goes on:
      the state stays `recording`, the microphone stays on and no
      RECORDING_STOP is sent. */
  method StaleAutoStopScenario() returns (state: WalkieState, micOn: bool, sent: seq<Signals.Json>)
    ensures state == Recording && micOn
    ensures sent == [ClientSignal("RECORDING_START", map["userId" := "A"])]
  {
    var w := new WalkieTalkie("A", true);
    w.ToggleRecording(0);
    assert w.timers.Keys == {0};
    w.FireTimer(0, 30000);
    state, micOn, sent := w.store.state, w.micEnabled, w.sent;
  }

  /** With the current `stopRecording` behind the limit, the same recording
      is stopped after 30 s and the stop is announced. */
  method FreshAutoStopScenario() returns (state: WalkieState, micOn: bool, sent: seq<Signals.Json>)
    ensures state == Processing && !micOn
    ensures sent == [ClientSignal("RECORDING_START", map["userId" := "A"]),
                     ClientSignal("RECORDING_STOP", map["userId" := "A"])]
  {
    var w := new WalkieTalkie("A", true);
    w.ToggleRecording(0);
    assert w.timers.Keys == {0};
    w.FireTimerFresh(0, 30000);
    state, micOn, sent := w.store.state, w.micEnabled, w.sent;
  }

  /** Happy path: A records, stops, hears its turn played back and completed. */
  method HappyPathScenario() returns (final: Store, sent: seq<Signals.Json>)
    ensures final.state == Idle && final.activeSpeakerId == None && final.error == None
    ensures final.transcripts == [TranscriptEntry("Hola", "Hello", "A", 5)]
    ensures sent == [ClientSignal("RECORDING_START", map["userId" := "A"]),
                     ClientSignal("RECORDING_STOP", map["userId" := "A"])]
  {
    var w := new WalkieTalkie("A", true);
    w.ToggleRecording(1);
    assert w.store.state == Recording && w.IsMyTurn();
    w.ToggleRecording(2);
    assert w.store.state == Processing && w.store.activeSpeakerId == Some("A");
    var playing := map["signal" := "TTS_PLAYING", "originalText" := "Hola", "translatedText" := "Hello"];
    assert Inbound(Signals.Topic, playing, "A", Some("A")) == Some(TtsPlaying("Hola", "Hello", "A"));
    w.HandleDataReceived(Signals.Topic, playing, 5);
    var complete := map["signal" := "TTS_COMPLETE"];
    assert Inbound(Signals.Topic, complete, "A", Some("A")) == Some(TtsComplete);
    w.HandleDataReceived(Signals.Topic, complete, 9);
    final, sent := w.store, w.sent;
  }

  /** As written, `startRecording` overwrites `timeoutRef` without clearing it.
      After an inbound ERROR ends a turn in `processing`, the 30 s timeout
      armed by `stopRecording` stays live; a new recording orphans it, and when
      it fires it throws the user out of that recording with the microphone on. */
  method OrphanedTimeoutScenario() returns (orphaned: bool, state: WalkieState, micOn: bool, error: Option<string>)
    ensures orphaned
    ensures state == Idle && micOn && error == Some(TimedOutMessage)
  {
    var w := new WalkieTalkie("A", true);
    w.ToggleRecording(0);                    // recording, auto-stop timer 0
    w.ToggleRecording(1);                    // processing, timeout timer 1
    w.HandleDataReceived(Signals.Topic, map["signal" := "ERROR", "message" := "Translation failed"], 2);
    assert w.store.state == Idle && 1 in w.timers;
    w.ToggleRecording(3);                    // recording again, auto-stop timer 2
    assert w.timeoutRef == Some(2) && 1 in w.timers;
    orphaned := !w.AtMostOneTimer();
    w.FireTimer(1, 30001);                   // the orphan fires mid-recording
    state, micOn, error := w.store.state, w.micEnabled, w.store.error;
  }

  /** The same sequence with the slot cleared before re-arming: the stale
      timeout is cancelled and the new recording survives. */
  method ClearedTimeoutScenario() returns (state: WalkieState, micOn: bool)
    ensures state == Recording && micOn
  {
    var w := new WalkieTalkie("A", true);
    w.StartRecordingClearingSlot(0);
    w.StopRecording(1);
    w.HandleDataReceived(Signals.Topic, map["signal" := "ERROR", "message" := "Translation failed"], 2);
    w.StartRecordingClearingSlot(3);
    assert w.timers.Keys == {2};
    w.FireTimerFresh(1, 30001);
    state, micOn := w.store.state, w.micEnabled;
  }
}
