/** The client's turn state machine: `walkieReducer` and `initialStore` of
    frontend/src/hooks/useWalkieTalkie.ts, as a pure function. */
module WalkieReducer {
  import opened Wrappers

  datatype WalkieState = Idle | Recording | Processing | Playing

  datatype TranscriptEntry = TranscriptEntry(
    originalText: string, translatedText: string, speakerId: string, timestamp: int)

  /** `activeSpeakerId` is None for JavaScript's null and also for the
      undefined a RECORDING_START payload without `userId` carries. */
  datatype Store = Store(
    state: WalkieState,
    activeSpeakerId: Option<string>,
    transcripts: seq<TranscriptEntry>,
    error: Option<string>)

  /** The reducer's actions; `Unrecognised` stands for any other `type`,
      which reaches the reducer's default branch. */
  datatype Action =
    | RecordingStart(userId: Option<string>)
    | RecordingStop
    | ProcessingStarted
    | TtsPlaying(originalText: string, translatedText: string, speakerId: string)
    | TtsComplete
    | ErrorSignal(message: string)
    | ClearError
    | Unrecognised(kind: string)

  const InitialStore: Store := Store(Idle, None, [], None)

  /** `walkieReducer`; `now` is the value of `Date.now()` when the action is reduced. */
  function Reduce(store: Store, action: Action, now: int): (r: Store)
    // the transcript log only grows, by at most one entry, at its end
    ensures |store.transcripts| <= |r.transcripts| <= |store.transcripts| + 1
    ensures r.transcripts[..|store.transcripts|] == store.transcripts
    // only RECORDING_START, TTS_COMPLETE and ERROR move the turn owner
    ensures r.activeSpeakerId != store.activeSpeakerId ==>
              action.RecordingStart? || action.TtsComplete? || action.ErrorSignal?
    // TTS_COMPLETE and ERROR always end the turn
    ensures action.TtsComplete? || action.ErrorSignal? ==> r.state == Idle && r.activeSpeakerId == None
    // only RECORDING_START, ERROR and CLEAR_ERROR touch the error
    ensures r.error != store.error ==> action.RecordingStart? || action.ErrorSignal? || action.ClearError?
  {
    match action
    case RecordingStart(u) => store.(state := Recording, activeSpeakerId := u, error := None)
    case RecordingStop => store.(state := Processing)
    case ProcessingStarted => store.(state := Processing)
    case TtsPlaying(o, t, sp) =>
      store.(state := Playing, transcripts := store.transcripts + [TranscriptEntry(o, t, sp, now)])
    case TtsComplete => store.(state := Idle, activeSpeakerId := None)
    case ErrorSignal(m) => store.(state := Idle, activeSpeakerId := None, error := Some(m))
    case ClearError => store.(error := None)
    case Unrecognised(_) => store
  }

  /** RECORDING_START hands the turn to its user and clears the error; the
      transcript log is untouched. */
  lemma RecordingStartEffect(store: Store, userId: string, now: int)
    ensures Reduce(store, RecordingStart(Some(userId)), now).state == Recording
    ensures Reduce(store, RecordingStart(Some(userId)), now).activeSpeakerId == Some(userId)
    ensures Reduce(store, RecordingStart(Some(userId)), now).error == None
    ensures Reduce(store, RecordingStart(Some(userId)), now).transcripts == store.transcripts
  {
  }

  /** TTS_PLAYING appends exactly the played entry, stamped with the clock. */
  lemma TtsPlayingAppends(store: Store, o: string, t: string, sp: string, now: int)
    ensures Reduce(store, TtsPlaying(o, t, sp), now).transcripts
         == store.transcripts + [TranscriptEntry(o, t, sp, now)]
    ensures Reduce(store, TtsPlaying(o, t, sp), now).state == Playing
    ensures Reduce(store, TtsPlaying(o, t, sp), now).activeSpeakerId == store.activeSpeakerId
  {
  }

  /** ERROR stores its message; TTS_COMPLETE leaves the error as it was. */
  lemma TurnEndErrors(store: Store, m: string, now: int)
    ensures Reduce(store, ErrorSignal(m), now).error == Some(m)
    ensures Reduce(store, TtsComplete, now).error == store.error
  {
  }

  /** A duplicate TTS_COMPLETE has no further effect. */
  lemma TtsCompleteIdempotent(store: Store, now1: int, now2: int)
    ensures Reduce(Reduce(store, TtsComplete, now1), TtsComplete, now2) == Reduce(store, TtsComplete, now1)
  {
  }

  /** CLEAR_ERROR changes only the error; an unrecognised action changes nothing. */
  lemma ClearErrorAndDefault(store: Store, kind: string, now: int)
    ensures Reduce(store, ClearError, now) == store.(error := None)
    ensures Reduce(store, Unrecognised(kind), now) == store
  {
  }

  /** The intended turn invariant: nobody owns the turn exactly when idle. */
  predicate OwnerIffIdle(store: Store) {
    store.activeSpeakerId.None? <==> store.state == Idle
  }

  /** The reducer does not look at the current state, so the invariant
      survives an action only if RECORDING_START names a user and
      RECORDING_STOP, PROCESSING and TTS_PLAYING arrive outside `idle`. */
  predicate Admissible(store: Store, action: Action) {
    match action
    case RecordingStart(u) => u.Some?
    case RecordingStop => store.state != Idle
    case ProcessingStarted => store.state != Idle
    case TtsPlaying(_, _, _) => store.state != Idle
    case _ => true
  }

  lemma OwnerIffIdleStep(store: Store, action: Action, now: int)
    requires OwnerIffIdle(store) && Admissible(store, action)
    ensures OwnerIffIdle(Reduce(store, action, now))
  {
  }

  /** Without that condition the invariant breaks: PROCESSING reaching an idle
      client (say, after its local timeout) yields `processing` with no owner. */
  lemma ProcessingWhileIdle()
    ensures OwnerIffIdle(InitialStore)
    ensures Reduce(InitialStore, ProcessingStarted, 0).state == Processing
    ensures !OwnerIffIdle(Reduce(InitialStore, ProcessingStarted, 0))
  {
  }

  /** A run of reduced actions, each with its clock reading. */
  function ReduceAll(store: Store, actions: seq<(Action, int)>): Store
    decreases |actions|
  {
    if actions == [] then store
    else ReduceAll(Reduce(store, actions[0].0, actions[0].1), actions[1..])
  }

  /** No run of actions removes or rewrites a transcript entry. */
  lemma {:induction false} TranscriptsAppendOnly(store: Store, actions: seq<(Action, int)>)
    ensures |store.transcripts| <= |ReduceAll(store, actions).transcripts|
    ensures ReduceAll(store, actions).transcripts[..|store.transcripts|] == store.transcripts
    decreases |actions|
  {
    if actions != [] {
      var next := Reduce(store, actions[0].0, actions[0].1);
      TranscriptsAppendOnly(next, actions[1..]);
      assert next.transcripts[..|store.transcripts|] == store.transcripts;
      assert ReduceAll(store, actions).transcripts[..|next.transcripts|][..|store.transcripts|]
          == ReduceAll(store, actions).transcripts[..|store.transcripts|];
    }
  }

  /** Every step of the run is admissible in the store it reaches. */
  predicate AdmissibleRun(store: Store, actions: seq<(Action, int)>)
    decreases |actions|
  {
    actions == [] ||
    (Admissible(store, actions[0].0) &&
     AdmissibleRun(Reduce(store, actions[0].0, actions[0].1), actions[1..]))
  }

  /** The owner/idle invariant holds along every admissible run. */
  lemma {:induction false} OwnerIffIdleRun(store: Store, actions: seq<(Action, int)>)
    requires OwnerIffIdle(store) && AdmissibleRun(store, actions)
    ensures OwnerIffIdle(ReduceAll(store, actions))
    decreases |actions|
  {
    if actions != [] {
      OwnerIffIdleStep(store, actions[0].0, actions[0].1);
      OwnerIffIdleRun(Reduce(store, actions[0].0, actions[0].1), actions[1..]);
    }
  }
}
