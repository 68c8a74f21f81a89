/** Sample and byte arithmetic of backend/app/voice/service.py: the 16 kHz
    decimation of inbound frames, the even-length padding of synthesized PCM,
    and the name of the published translation track. */
module VoiceAudio {
  import opened Wrappers

  type byte = bv8

  /** The rate the speech-to-text service is fed. */
  const TargetRate: nat := 16000

  /** ceil(n / f). */
  function CeilDiv(n: nat, f: nat): nat
    requires f > 0
  {
    (n + f - 1) / f
  }

  lemma MulMono(a: nat, b: nat, f: nat)
    requires a <= b
    ensures a * f <= b * f
  {
  }

  /** Indices below ceil(n / f), scaled by f, stay below n. */
  lemma StrideIndex(n: nat, f: nat, i: nat)
    requires f > 0 && i < CeilDiv(n, f)
    ensures i * f < n
  {
    var q := CeilDiv(n, f);
    assert q * f <= n + f - 1;
    MulMono(i + 1, q, f);
    assert (i + 1) * f == i * f + f;
  }

  lemma StrideIndexAll(n: nat, f: nat)
    requires f > 0
    ensures forall i: nat :: i < CeilDiv(n, f) ==> i * f < n
  {
    forall i: nat | i < CeilDiv(n, f) ensures i * f < n { StrideIndex(n, f, i); }
  }

  /** `samples[::f]`: every f-th sample starting with the first, so that
      ceil(|samples| / f) samples remain. */
  function Stride(samples: seq<int>, f: nat): (r: seq<int>)
    requires f > 0
    ensures |r| == CeilDiv(|samples|, f)
    ensures forall i :: 0 <= i < |r| ==> i * f < |samples| && r[i] == samples[i * f]
  {
    StrideIndexAll(|samples|, f);
    seq(CeilDiv(|samples|, f), i requires 0 <= i < CeilDiv(|samples|, f) => samples[i * f])
  }

  /** The decimation in `send_audio`: a rate other than 16000 that 16000
      divides is reduced by keeping every (rate / 16000)-th sample; any other
      rate passes the samples through. A rate of 0 makes the slice step zero,
      which raises, and is None here. */
  function Downsample(samples: seq<int>, srcRate: nat): (r: Option<seq<int>>)
    ensures r.None? <==> srcRate == 0
    ensures srcRate != TargetRate && srcRate % TargetRate != 0 ==> r == Some(samples)
    ensures srcRate == TargetRate ==> r == Some(samples)
    ensures srcRate != TargetRate && srcRate > 0 && srcRate % TargetRate == 0 ==>
              srcRate / TargetRate > 1 && r == Some(Stride(samples, srcRate / TargetRate))
  {
    if srcRate != TargetRate && srcRate % TargetRate == 0 then
      if srcRate == 0 then None else Some(Stride(samples, srcRate / TargetRate))
    else Some(samples)
  }

  /** A 48 kHz frame keeps every third sample. */
  lemma Downsample48k(samples: seq<int>)
    ensures Downsample(samples, 48000).Some?
    ensures |Downsample(samples, 48000).value| == (|samples| + 2) / 3
  {
  }

  /** Chunk padding in `_tts_and_publish`: an odd-length chunk gets one zero
      byte so that it holds whole 16-bit samples. */
  function PadToSamples(chunk: seq<byte>): (r: seq<byte>)
    ensures |r| % 2 == 0
    ensures |chunk| <= |r| <= |chunk| + 1
    ensures r[..|chunk|] == chunk
    ensures |r| > |chunk| ==> r[|chunk|] == 0
  {
    if |chunk| % 2 != 0 then chunk + [0] else chunk
  }

  /** `samples_per_channel` of the published mono frame. */
  function SamplesPerChannel(chunk: seq<byte>): (n: nat)
    ensures 2 * n == |PadToSamples(chunk)|
    ensures n == (|chunk| + 1) / 2
  {
    |PadToSamples(chunk)| / 2
  }

  /** The name of the track carrying one speaker's translated voice. */
  function TrackName(speakerId: string): (name: string)
    ensures |name| == |"translated-"| + |speakerId|
    ensures name[..|"translated-"|] == "translated-" && name[|"translated-"|..] == speakerId
  {
    "translated-" + speakerId
  }

  /** Distinct speakers publish under distinct track names. */
  lemma TrackNameInjective(a: string, b: string)
    ensures TrackName(a) == TrackName(b) ==> a == b
  {
    if TrackName(a) == TrackName(b) {
      assert a == TrackName(a)[|"translated-"|..];
    }
  }
}
