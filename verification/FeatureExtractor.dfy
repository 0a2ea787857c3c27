/** Log-mel features of audio, all at once and incrementally as audio arrives. */
module FeatureExtractor {
  import opened Prelude

  const HOP_LENGTH := 160
  const N_FFT := 400

  /** A feature frame: one value for each mel band. */
  type Frame = seq<real>

  /** The windowed transform of the samples of one frame to log-mel values. */
  type LogMel = seq<real> -> Frame

  /** Positions before the start and after the end are reflected into the audio. */
  function ReflectIndex(i: int, len: nat): (j: nat)
    ensures len > 0 ==> j < len
  {
    if len <= 1 then 0 else
      var period := 2 * (len - 1);
      var j := i % period;
      if j >= len then period - j else j
  }

  lemma RemainderUnique(i: int, period: nat, q: int)
    requires period > 0 && q * period <= i < q * period + period
    ensures i % period == i - q * period
  {
    var p := i / period;
    assert i == p * period + i % period;
    if p > q {
      MulMonotone(q + 1, p, period);
    } else if p < q {
      MulMonotone(p + 1, q, period);
    }
  }

  lemma ReflectInside(i: int, len: nat)
    requires 0 <= i < len
    ensures ReflectIndex(i, len) == i
  {
    if len > 1 {
      RemainderUnique(i, 2 * (len - 1), 0);
    }
  }

  lemma ReflectBefore(i: int, len: nat)
    requires len >= 2 && -(len - 1) <= i < 0
    ensures ReflectIndex(i, len) == -i
  {
    RemainderUnique(i, 2 * (len - 1), -1);
  }

  lemma ReflectBehind(i: int, len: nat)
    requires len >= 2 && len <= i <= 2 * (len - 1)
    ensures ReflectIndex(i, len) == 2 * (len - 1) - i
  {
    if i == 2 * (len - 1) {
      RemainderUnique(i, 2 * (len - 1), 1);
    } else {
      RemainderUnique(i, 2 * (len - 1), 0);
    }
  }

  /** Farther out, audio reflected at both ends repeats. */
  lemma ReflectRepeats(i: int, len: nat)
    requires len >= 2
    ensures ReflectIndex(i + 2 * (len - 1), len) == ReflectIndex(i, len)
  {
    var period := 2 * (len - 1);
    RemainderUnique(i + period, period, i / period + 1);
    assert (i / period + 1) * period == i / period * period + period;
  }

  function FrameSamples(wav: seq<real>, idx: nat): (samples: seq<real>)
    requires wav != []
    ensures |samples| == N_FFT
  {
    seq(N_FFT, i requires 0 <= i < N_FFT => wav[ReflectIndex(idx * HOP_LENGTH + i - N_FFT / 2, |wav|)])
  }

  function FrameCount(wav: seq<real>): nat { |wav| / HOP_LENGTH }

  function RawSpec(mel: LogMel, wav: seq<real>): (raw: seq<Frame>)
    ensures |raw| == FrameCount(wav)
  {
    seq(FrameCount(wav), idx requires 0 <= idx < FrameCount(wav) => mel(FrameSamples(wav, idx)))
  }

  // ----- range compression

  function MaxOption(a: Option<real>, v: real): Option<real> {
    if a.None? || v > a.value then Some(v) else a
  }

  function MaxOfFrame(m: Option<real>, frame: Frame): Option<real> {
    if frame == [] then m else MaxOption(MaxOfFrame(m, frame[..|frame| - 1]), frame[|frame| - 1])
  }

  /** The largest log-mel value; nothing when there is none. */
  function MaxLog(raw: seq<Frame>): Option<real> {
    if raw == [] then None else MaxOfFrame(MaxLog(raw[..|raw| - 1]), raw[|raw| - 1])
  }

  function Floor(m: Option<real>): real { if m.Some? then m.value - 8.0 else 0.0 }

  function CompressLogMel(v: real, floor: real): real {
    ((if v < floor then floor else v) + 4.0) / 4.0
  }

  function Compress(frame: Frame, floor: real): (r: Frame)
    ensures |r| == |frame|
  {
    seq(|frame|, i requires 0 <= i < |frame| => CompressLogMel(frame[i], floor))
  }

  function CompressAll(raw: seq<Frame>, floor: real): (r: seq<Frame>)
    ensures |r| == |raw|
  {
    seq(|raw|, i requires 0 <= i < |raw| => Compress(raw[i], floor))
  }

  /** The features of a whole audio. */
  function Features(mel: LogMel, wav: seq<real>): (features: seq<Frame>)
    ensures |features| == FrameCount(wav)
  {
    CompressAll(RawSpec(mel, wav), Floor(MaxLog(RawSpec(mel, wav))))
  }

  lemma {:induction false} MaxOfFrameIsMax(m: Option<real>, frame: Frame)
    ensures var r := MaxOfFrame(m, frame);
            && (m.Some? ==> r.Some? && m.value <= r.value) && (frame != [] ==> r.Some?)
            && (forall k :: 0 <= k < |frame| ==> frame[k] <= r.value)
            && (r == m || (r.Some? && r.value in frame))
  {
    if frame != [] {
      MaxOfFrameIsMax(m, frame[..|frame| - 1]);
    }
  }

  /** The largest value is one of the values, and no value is larger. */
  lemma {:induction false} MaxLogIsMax(raw: seq<Frame>)
    ensures MaxLog(raw).Some? <==> exists i :: 0 <= i < |raw| && raw[i] != []
    ensures forall i, k :: 0 <= i < |raw| && 0 <= k < |raw[i]| ==> AtMost(raw[i][k], MaxLog(raw))
    ensures MaxLog(raw).Some? ==> exists i :: 0 <= i < |raw| && MaxLog(raw).value in raw[i]
  {
    hide MaxOfFrame;
    if raw != [] {
      var n := |raw| - 1;
      MaxLogIsMax(raw[..n]);
      MaxOfFrameIsMax(MaxLog(raw[..n]), raw[n]);
      forall i, k | 0 <= i < |raw| && 0 <= k < |raw[i]|
        ensures AtMost(raw[i][k], MaxLog(raw))
      {
        if i < n {
          assert raw[..n][i] == raw[i] && AtMost(raw[..n][i][k], MaxLog(raw[..n]));
        }
      }
      if MaxLog(raw[..n]).Some? {
        var i :| 0 <= i < n && MaxLog(raw[..n]).value in raw[..n][i];
        assert raw[i] != [] && MaxLog(raw[..n]).value in raw[i];
      }
    }
  }

  predicate AtMost(v: real, m: Option<real>) { m.Some? && v <= m.value }

  /** Values more than eight below the largest are raised to that; then everything is moved by four and divided by
      four. */
  lemma CompressMeans(v: real, top: real)
    ensures var c := CompressLogMel(v, Floor(Some(top)));
            4.0 * c - 4.0 >= top - 8.0 && 4.0 * c - 4.0 >= v && (4.0 * c - 4.0 == v || 4.0 * c - 4.0 == top - 8.0)
  {
  }

  function TopLog(mel: LogMel, wav: seq<real>): Option<real> { MaxLog(RawSpec(mel, wav)) }

  // ----- what more audio leaves as it is

  /** A frame that is not the last reads no sample at or past the end, so more audio does not change it. */
  lemma FrameStable(wav: seq<real>, more: seq<real>, idx: nat)
    requires idx + 1 < FrameCount(wav)
    ensures FrameSamples(wav + more, idx) == FrameSamples(wav, idx)
  {
    forall i | 0 <= i < N_FFT
      ensures FrameSamples(wav + more, idx)[i] == FrameSamples(wav, idx)[i]
    {
      var at := idx * HOP_LENGTH + i - N_FFT / 2;
      assert |wav| >= (idx + 2) * HOP_LENGTH;
      if at >= 0 {
        ReflectInside(at, |wav|);
        ReflectInside(at, |wav + more|);
      } else {
        ReflectBefore(at, |wav|);
        ReflectBefore(at, |wav + more|);
      }
    }
  }

  lemma RawStable(mel: LogMel, wav: seq<real>, more: seq<real>)
    ensures FrameCount(wav) <= FrameCount(wav + more)
    ensures FrameCount(wav) > 0 ==>
              RawSpec(mel, wav + more)[..FrameCount(wav) - 1] == RawSpec(mel, wav)[..FrameCount(wav) - 1]
  {
    if FrameCount(wav) > 0 {
      forall idx: nat | idx < FrameCount(wav) - 1
        ensures RawSpec(mel, wav + more)[idx] == RawSpec(mel, wav)[idx]
      {
        FrameStable(wav, more, idx);
      }
    }
  }

  /** While the largest value stays the same, all features but the last do too. */
  lemma FeaturesStable(mel: LogMel, wav: seq<real>, more: seq<real>)
    requires FrameCount(wav) > 0 && TopLog(mel, wav) == TopLog(mel, wav + more)
    ensures FrameCount(wav) <= FrameCount(wav + more)
    ensures Features(mel, wav + more)[..FrameCount(wav) - 1] == Features(mel, wav)[..FrameCount(wav) - 1]
  {
    hide MaxLog, Compress;
    RawStable(mel, wav, more);
    var n := FrameCount(wav) - 1;
    forall i | 0 <= i < n
      ensures Features(mel, wav + more)[i] == Features(mel, wav)[i]
    {
      assert RawSpec(mel, wav + more)[..n][i] == RawSpec(mel, wav)[..n][i];
    }
  }

  // ----- incrementally

  /** The feature columns of the audio so far, kept up to date as audio is appended. */
  class StreamingFeatureExtractor {
    const mel: LogMel
    var wav: seq<real>
    var rawLogSpec: seq<Frame>
    var inputFeatures: seq<Frame>
    var featureAttentionMask: seq<nat>
    var compressedMaxLog: Option<real>

    /** The state is that of extracting everything from the whole audio at once. */
    ghost predicate Valid()
      reads this
    {
      && rawLogSpec == RawSpec(mel, wav)
      && inputFeatures == Features(mel, wav)
      && featureAttentionMask == seq(FrameCount(wav), _ => 1)
      && compressedMaxLog == TopLog(mel, wav)
    }

    constructor (mel: LogMel)
      ensures Valid() && this.mel == mel && wav == []
    {
      this.mel := mel;
      wav, rawLogSpec, inputFeatures, featureAttentionMask, compressedMaxLog := [], [], [], [], None;
    }

    method AppendSamples(samples: seq<real>)
      requires Valid()
      modifies this
      ensures Valid() && wav == old(wav) + samples
    {
      if samples == [] {
        assert wav + [] == wav;
        return;
      }
      ghost var before := wav;
      wav := wav + samples;
      Update(before, samples);
    }

    /** Recompute from the last frame on, and compress again what the new largest value changes. */
    method Update(ghost before: seq<real>, ghost samples: seq<real>)
      requires wav == before + samples && samples != []
      requires rawLogSpec == RawSpec(mel, before) && inputFeatures == Features(mel, before)
      requires featureAttentionMask == seq(FrameCount(before), _ => 1) && compressedMaxLog == TopLog(mel, before)
      modifies this`rawLogSpec, this`inputFeatures, this`featureAttentionMask, this`compressedMaxLog
      ensures Valid()
    {
      hide MaxLog, Compress, FrameSamples;
      RawStable(mel, before, samples);
      var framesTotal := |wav| / HOP_LENGTH;
      var oldFrames := |featureAttentionMask|;
      var recomputeFrom := if oldFrames == 0 then 0 else oldFrames - 1;
      rawLogSpec := rawLogSpec[..recomputeFrom];
      inputFeatures := inputFeatures[..recomputeFrom];
      featureAttentionMask := featureAttentionMask[..recomputeFrom];
      if framesTotal == 0 {
        compressedMaxLog := None;
        NoFrames(mel, wav);
        return;
      }
      PushFramesRaw(recomputeFrom, framesTotal);
      featureAttentionMask := featureAttentionMask + seq(framesTotal - recomputeFrom, _ => 1);
      var maxLog := MaxLog(rawLogSpec);
      var floor := Floor(maxLog);
      var maxChanged := maxLog != compressedMaxLog;
      compressedMaxLog := maxLog;
      if maxChanged {
        inputFeatures := CompressAll(rawLogSpec, floor);
        return;
      }
      if oldFrames > 0 {
        FeaturesStable(mel, before, samples);
      }
      CompressedTail(mel, wav, recomputeFrom);
      inputFeatures := inputFeatures + CompressAll(rawLogSpec[recomputeFrom..], floor);
    }

    method PushFramesRaw(from: nat, framesTotal: nat)
      requires from <= framesTotal == FrameCount(wav) && rawLogSpec == RawSpec(mel, wav)[..from]
      modifies this`rawLogSpec
      ensures rawLogSpec == RawSpec(mel, wav)
    {
      hide FrameSamples;
      for frameIdx := from to framesTotal
        invariant rawLogSpec == RawSpec(mel, wav)[..frameIdx]
      {
        rawLogSpec := rawLogSpec + [mel(FrameSamples(wav, frameIdx))];
      }
    }
  }

  /** The features from a frame on are those of the raw frames from there on. */
  lemma CompressedTail(mel: LogMel, wav: seq<real>, from: nat)
    requires from <= FrameCount(wav)
    ensures Features(mel, wav) ==
              Features(mel, wav)[..from] + CompressAll(RawSpec(mel, wav)[from..], Floor(TopLog(mel, wav)))
  {
    hide MaxLog, Compress;
  }

  lemma NoFrames(mel: LogMel, wav: seq<real>)
    requires FrameCount(wav) == 0
    ensures RawSpec(mel, wav) == [] && Features(mel, wav) == [] && TopLog(mel, wav) == None
  {
  }
}
