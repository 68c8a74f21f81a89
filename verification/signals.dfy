/** The walkie-talkie control-signal codec of backend/app/voice/signals.py.
    A JSON object is modelled as a flat map from field name to string value;
    `json.dumps` followed by `json.loads` is the identity on such maps, so the
    encoded form and the parsed form are the same map. */
module Signals {
  import opened Wrappers

  datatype Signal = RecordingStart | RecordingStop | Processing | TtsPlaying | TtsComplete | Error

  type Json = map<string, string>

  /** Keyword arguments of `encode_signal`, in call order. */
  type Kwargs = seq<(string, string)>

  /** The data-channel topic shared by the agent and the clients. */
  const Topic: string := "walkie-talkie"

  /** The discriminant field of every signal object. */
  const SignalField: string := "signal"

  const AllSignals: seq<Signal> := [RecordingStart, RecordingStop, Processing, TtsPlaying, TtsComplete, Error]

  /** The enum member's string value. */
  function Value(s: Signal): string {
    match s
    case RecordingStart => "RECORDING_START"
    case RecordingStop => "RECORDING_STOP"
    case Processing => "PROCESSING"
    case TtsPlaying => "TTS_PLAYING"
    case TtsComplete => "TTS_COMPLETE"
    case Error => "ERROR"
  }

  /** `_SIGNAL_LOOKUP`, the table the comprehension over the enum builds:
      each member's string mapped back to the member. */
  const SignalLookup: map<string, Signal> :=
    map["RECORDING_START" := RecordingStart, "RECORDING_STOP" := RecordingStop,
        "PROCESSING" := Processing, "TTS_PLAYING" := TtsPlaying,
        "TTS_COMPLETE" := TtsComplete, "ERROR" := Error]

  /** Every member is listed, and the table maps its string back to it. */
  lemma LookupCoversMembers(s: Signal)
    ensures s in AllSignals
    ensures Value(s) in SignalLookup && SignalLookup[Value(s)] == s
  {
    match s
    case RecordingStart => assert AllSignals[0] == s;
    case RecordingStop => assert AllSignals[1] == s;
    case Processing => assert AllSignals[2] == s;
    case TtsPlaying => assert AllSignals[3] == s;
    case TtsComplete => assert AllSignals[4] == s;
    case Error => assert AllSignals[5] == s;
  }

  /** Every key of the table is the string of the member it maps to. */
  lemma LookupKeysAreValues(k: string)
    requires k in SignalLookup
    ensures Value(SignalLookup[k]) == k
  {
  }

  /** The lookup table is a bijection between the six members and their strings. */
  lemma LookupBijection()
    ensures SignalLookup.Keys == set s | s in AllSignals :: Value(s)
    ensures forall s: Signal :: s in AllSignals && Value(s) in SignalLookup && SignalLookup[Value(s)] == s
    ensures forall k :: k in SignalLookup ==> Value(SignalLookup[k]) == k
  {
    forall s: Signal ensures s in AllSignals && Value(s) in SignalLookup && SignalLookup[Value(s)] == s {
      LookupCoversMembers(s);
    }
    forall k | k in SignalLookup ensures Value(SignalLookup[k]) == k && k in set s | s in AllSignals :: Value(s) {
      LookupKeysAreValues(k);
      LookupCoversMembers(SignalLookup[k]);
    }
  }

  /** The snake_case to camelCase table of `encode_signal`. */
  const KeyMap: map<string, string> :=
    map["user_id" := "userId", "original_text" := "originalText",
        "translated_text" := "translatedText", "message" := "message"]

  /** `key_map.get(key, key)`: the four payload keywords get their camelCase
      name, any other keyword keeps its own. */
  function CamelKey(key: string): (r: string)
    ensures key !in KeyMap ==> r == key
  {
    if key in KeyMap then KeyMap[key] else key
  }

  /** Only a keyword literally named `signal` lands on the discriminant. */
  lemma CamelKeySignal(key: string)
    ensures CamelKey(key) == SignalField <==> key == SignalField
  {
  }

  /** The object `encode_signal` builds: the discriminant first, then each
      keyword argument in order. Two keywords can only land on the same
      field through the renaming (`user_id` and `userId`); the later one
      then replaces the earlier. */
  function Encoded(signal: Signal, kwargs: Kwargs): Json
    decreases |kwargs|
  {
    if kwargs == [] then map[SignalField := Value(signal)]
    else
      var last := kwargs[|kwargs| - 1];
      Encoded(signal, kwargs[..|kwargs| - 1])[CamelKey(last.0) := last.1]
  }

  /** `encode_signal`: fills the object in place, one keyword at a time. */
  method EncodeSignal(signal: Signal, kwargs: Kwargs) returns (data: Json)
    requires Bindable(kwargs)
    ensures data == Encoded(signal, kwargs)
  {
    data := map[SignalField := Value(signal)];
    for i := 0 to |kwargs|
      invariant data == Encoded(signal, kwargs[..i])
    {
      var (key, value) := kwargs[i];
      assert kwargs[..i + 1][..i] == kwargs[..i];
      data := data[CamelKey(key) := value];
    }
    assert kwargs[..|kwargs|] == kwargs;
  }

  /** No keyword is named `signal`. */
  predicate NoSignalKey(kwargs: Kwargs) {
    forall i :: 0 <= i < |kwargs| ==> kwargs[i].0 != SignalField
  }

  /** A keyword list Python can bind to `encode_signal(signal, **kwargs)`:
      no keyword repeats the parameter `signal`, and no name occurs twice. */
  predicate Bindable(kwargs: Kwargs) {
    NoSignalKey(kwargs) && forall i, j :: 0 <= i < j < |kwargs| ==> kwargs[i].0 != kwargs[j].0
  }

  /** No two keywords land on the same camelCase field. */
  predicate MappedDistinct(kwargs: Kwargs) {
    forall i, j :: 0 <= i < j < |kwargs| ==> CamelKey(kwargs[i].0) != CamelKey(kwargs[j].0)
  }

  /** The fields of the encoded object: the discriminant and each mapped key. */
  lemma {:induction false} EncodedKeys(signal: Signal, kwargs: Kwargs)
    ensures Encoded(signal, kwargs).Keys
         == {SignalField} + set i | 0 <= i < |kwargs| :: CamelKey(kwargs[i].0)
    decreases |kwargs|
  {
    if kwargs != [] {
      var n := |kwargs| - 1;
      var init := kwargs[..n];
      EncodedKeys(signal, init);
      assert (set i | 0 <= i < |kwargs| :: CamelKey(kwargs[i].0))
          == (set i | 0 <= i < |init| :: CamelKey(init[i].0)) + {CamelKey(kwargs[n].0)} by {
        forall i | 0 <= i < |init| ensures init[i] == kwargs[i] { }
      }
    }
  }

  /** Unless a keyword is named `signal`, the discriminant is the signal's value. */
  lemma {:induction false} EncodedDiscriminant(signal: Signal, kwargs: Kwargs)
    requires NoSignalKey(kwargs)
    ensures SignalField in Encoded(signal, kwargs)
    ensures Encoded(signal, kwargs)[SignalField] == Value(signal)
    decreases |kwargs|
  {
    if kwargs != [] {
      EncodedDiscriminant(signal, kwargs[..|kwargs| - 1]);
      CamelKeySignal(kwargs[|kwargs| - 1].0);
    }
  }

  /** A keyword's value sits under its camelCase key unless a later keyword
      lands on the same field; with distinct mapped keys this holds for
      every keyword. */
  lemma {:induction false} EncodedField(signal: Signal, kwargs: Kwargs, i: nat)
    requires i < |kwargs|
    requires forall j :: i < j < |kwargs| ==> CamelKey(kwargs[j].0) != CamelKey(kwargs[i].0)
    ensures CamelKey(kwargs[i].0) in Encoded(signal, kwargs)
    ensures Encoded(signal, kwargs)[CamelKey(kwargs[i].0)] == kwargs[i].1
    decreases |kwargs|
  {
    var n := |kwargs| - 1;
    if i < n {
      var init := kwargs[..n];
      assert init[i] == kwargs[i];
      EncodedField(signal, init, i);
    }
  }

  /** `decode_signal`: the member named by the `signal` field, or None when the
      field is absent or names no member; the whole parsed object is returned
      in both cases. */
  function DecodeSignal(raw: Json): (r: (Option<Signal>, Json))
    ensures r.1 == raw
    ensures r.0.Some? <==> SignalField in raw && exists s: Signal :: raw[SignalField] == Value(s)
    ensures r.0.Some? ==> raw[SignalField] == Value(r.0.value)
  {
    LookupBijection();
    match Get(raw, SignalField)
    case Some(v) => (Get(SignalLookup, v), raw)
    case None => (None, raw)
  }

  /** Decoding an encoded signal gives back the signal and every payload field
      under its camelCase key, when no keyword is named `signal` and no two
      keywords map to the same field. */
  lemma RoundTrip(signal: Signal, kwargs: Kwargs)
    requires NoSignalKey(kwargs) && MappedDistinct(kwargs)
    ensures DecodeSignal(Encoded(signal, kwargs)).0 == Some(signal)
    ensures SignalField in DecodeSignal(Encoded(signal, kwargs)).1
    ensures DecodeSignal(Encoded(signal, kwargs)).1[SignalField] == Value(signal)
    ensures forall i :: 0 <= i < |kwargs| ==>
              CamelKey(kwargs[i].0) in DecodeSignal(Encoded(signal, kwargs)).1 &&
              DecodeSignal(Encoded(signal, kwargs)).1[CamelKey(kwargs[i].0)] == kwargs[i].1
    ensures DecodeSignal(Encoded(signal, kwargs)).1.Keys
         == {SignalField} + set i | 0 <= i < |kwargs| :: CamelKey(kwargs[i].0)
  {
    EncodedDiscriminant(signal, kwargs);
    EncodedKeys(signal, kwargs);
    forall i | 0 <= i < |kwargs|
      ensures CamelKey(kwargs[i].0) in Encoded(signal, kwargs)
      ensures Encoded(signal, kwargs)[CamelKey(kwargs[i].0)] == kwargs[i].1
    {
      EncodedField(signal, kwargs, i);
    }
    LookupBijection();
  }

  /** Any string other than the six values decodes to None. */
  lemma UnknownDecodesToNone(raw: Json)
    requires SignalField in raw
    requires raw[SignalField] !in SignalLookup.Keys
    ensures DecodeSignal(raw).0 == None && DecodeSignal(raw).1 == raw
  {
    LookupBijection();
  }
}
