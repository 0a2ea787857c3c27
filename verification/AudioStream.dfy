/** Streaming transcription's audio features: the cached rows of earlier steps are reused where the audio that
    arrived since cannot have changed them. */
module AudioStream {
  import opened Prelude
  import opened FeatLengths
  import opened FeatureExtractor
  import opened AudioEncoder
  import opened EncoderForward

  datatype AudioFeaturesCache = AudioFeaturesCache(frames: nat, wavLenSamples: nat, compressedMaxLog: Option<real>,
                                                   audioFeatures: seq<Row>)

  /** The first frame of the segment that holds the last cached frame. */
  function RecomputeFromForStreamAppend(cacheFrames: nat, segmentFrames: nat): nat {
    if segmentFrames == 0 then 0 else
      var changedStartFrame := Max(cacheFrames - 1, 0);
      Quotient(changedStartFrame, segmentFrames) * segmentFrames
  }

  lemma RecomputeFrom(cacheFrames: nat, segmentFrames: nat)
    requires segmentFrames > 0 && cacheFrames > 0
    ensures RecomputeFromForStreamAppend(cacheFrames, segmentFrames) < cacheFrames
    ensures cacheFrames <= RecomputeFromForStreamAppend(cacheFrames, segmentFrames) + segmentFrames
    ensures exists k: nat :: RecomputeFromForStreamAppend(cacheFrames, segmentFrames) == Segments(k, segmentFrames)
  {
    var q := Quotient(cacheFrames - 1, segmentFrames);
    assert q * segmentFrames <= cacheFrames - 1 < q * segmentFrames + segmentFrames;
    assert RecomputeFromForStreamAppend(cacheFrames, segmentFrames) == Segments(q, segmentFrames);
  }

  function Segments(k: nat, segmentFrames: nat): nat { k * segmentFrames }

  // ----- what a step should return

  /** The frames a window of `sec` seconds holds, a hundred to the second. */
  function WindowFrames(sec: real): (n: nat)
    requires sec > 0.0
    ensures n >= 1
    ensures sec * 100.0 >= 0.5 ==> -0.5 < n as real - sec * 100.0 <= 0.5
    ensures sec * 100.0 < 0.5 ==> n == 1
  {
    Max((sec * 100.0 + 0.5).Floor, 1)
  }

  /** The frames a step encodes: all, or those of the last `windowSec` seconds. */
  function FirstFrame(windowSec: Option<real>, total: nat): (first: nat)
    requires windowSec.Some? ==> windowSec.value > 0.0
    ensures first <= total
    ensures total - first == if windowSec.None? then total else Min(total, WindowFrames(windowSec.value))
  {
    if windowSec.None? then 0 else Max(total - WindowFrames(windowSec.value), 0)
  }

  /** The encoding, from nothing, of the frames the step is about. */
  ghost function FromScratch(e: Encoder, windowSec: Option<real>, features: seq<Frame>): seq<Row>
    requires Usable(e) && (windowSec.Some? ==> windowSec.value > 0.0)
  {
    Encoded(e, features[FirstFrame(windowSec, |features|)..])
  }

  // ----- the cache

  /** The cache holds the rows of the audio up to some earlier moment. */
  ghost predicate CacheValid(e: Encoder, mel: LogMel, wav: seq<real>, cache: AudioFeaturesCache)
    requires Usable(e)
  {
    && cache.wavLenSamples <= |wav|
    && var then_ := wav[..cache.wavLenSamples];
       && cache.frames == FrameCount(then_) > 0
       && cache.compressedMaxLog == TopLog(mel, then_)
       && cache.audioFeatures == Encoded(e, Features(mel, then_))
  }

  /** The rows before the recomputed segment are those of the present audio. */
  lemma CachedPrefix(e: Encoder, mel: LogMel, wav: seq<real>, cache: AudioFeaturesCache, from: nat)
    requires WellShaped(e) && Usable(e) && e.flash && Window(e) == 100 && SegmentFrames(e) > 0
    requires CacheValid(e, mel, wav, cache) && cache.compressedMaxLog == TopLog(mel, wav)
    requires from == RecomputeFromForStreamAppend(cache.frames, SegmentFrames(e))
    ensures from <= FrameCount(wav) && FeatExtractOutputLength(from) <= |cache.audioFeatures|
    ensures Encoded(e, Features(mel, wav)) ==
              cache.audioFeatures[..FeatExtractOutputLength(from)] + Encoded(e, Features(mel, wav)[from..])
  {
    hide Encoded, Features, FeatExtractOutputLength, SegmentFrames, TopLog, Quotient, Ratio;
    var then_ := wav[..cache.wavLenSamples];
    var more := wav[cache.wavLenSamples..];
    assert wav == then_ + more;
    FeaturesStable(mel, then_, more);
    RecomputeFrom(cache.frames, SegmentFrames(e));
    var k := Quotient(Max(cache.frames - 1, 0), SegmentFrames(e));
    var (old_, now) := (Features(mel, then_), Features(mel, wav));
    assert old_[..from] == old_[..cache.frames - 1][..from] == now[..cache.frames - 1][..from] == now[..from];
    EncodedSplit(e, old_, k);
    EncodedSplit(e, now, k);
    EncodedLength(e, old_[..from]);
  }

  lemma SegmentFramesPositive(e: Encoder)
    requires e.nWindow > 0 && Ratio(e) > 0
    ensures SegmentFrames(e) > 0
  {
    MulMonotone(1, Ratio(e), Window(e));
  }

  /** A configuration the encoder takes audio of every length in. */
  ghost predicate Working(e: Encoder) {
    WellShaped(e) && Usable(e) && Window(e) == 100
  }

  class AsrStream {
    const encoder: Encoder
    const audioWindowSec: Option<real>
    const features: StreamingFeatureExtractor
    var audioCache: Option<AudioFeaturesCache>

    ghost predicate Valid()
      reads this, features
    {
      && Working(encoder)
      && features.Valid()
      && (audioCache.Some? ==> CacheValid(encoder, features.mel, features.wav, audioCache.value))
    }

    constructor (encoder: Encoder, audioWindowSec: Option<real>, mel: LogMel)
      requires Working(encoder)
      ensures Valid() && fresh(features) && features.wav == []
      ensures this.encoder == encoder && this.audioWindowSec == audioWindowSec && features.mel == mel
    {
      this.encoder, this.audioWindowSec, this.audioCache := encoder, audioWindowSec, None;
      this.features := new StreamingFeatureExtractor(mel);
    }

    /** More audio arrives. */
    method AppendAudio(samples: seq<real>)
      requires Valid()
      modifies features
      ensures Valid() && features.wav == old(features.wav) + samples && audioCache == old(audioCache)
    {
      hide Encoded, Features, TopLog, Working;
      ghost var before := features.wav;
      features.AppendSamples(samples);
      if audioCache.Some? {
        assert features.wav[..audioCache.value.wavLenSamples] == before[..audioCache.value.wavLenSamples];
      }
    }

    method ComputeAudioFeatures(from: nat) returns (rows: seq<Row>)
      requires Valid() && from < |features.inputFeatures|
      ensures rows == Encoded(encoder, features.inputFeatures[from..])
      ensures |rows| == FeatExtractOutputLength(|features.inputFeatures| - from)
    {
      hide Encoded, Features, FeatExtractOutputLength, Accepts, WellShaped;
      var frames := features.inputFeatures[from..];
      HundredAccepted(encoder, |frames|);
      var r := ForwardOne(encoder, frames);
      rows := r.value;
      EncodedLength(encoder, frames);
    }

    /** Frames in a segment, when segments are encoded apart. */
    method AudioCacheSegmentFrames() returns (r: Option<nat>)
      requires Working(encoder)
      ensures r == if encoder.flash then Some(SegmentFrames(encoder)) else None
      ensures r.Some? ==> r.value > 0
    {
      if !encoder.flash {
        return None;
      }
      SegmentFramesPositive(encoder);
      var ratio := Ratio(encoder);
      if ratio == 0 {
        return None;
      }
      var segmentFrames := Window(encoder) * ratio;
      if segmentFrames == 0 {
        return None;
      }
      r := Some(segmentFrames);
    }

    /** Whatever is cached, the step returns what encoding from scratch would; none of its length checks fail. */
    method AudioFeaturesForStep() returns (r: Outcome<seq<Row>>)
      requires Valid()
      modifies this`audioCache
      ensures Valid()
      ensures r.Ok? <==> FrameCount(features.wav) > 0 && (audioWindowSec.Some? ==> audioWindowSec.value > 0.0)
      ensures r.Ok? ==> r.value == FromScratch(encoder, audioWindowSec, Features(features.mel, features.wav))
    {
      hide Encoded, Features, FeatExtractOutputLength, TopLog, WellShaped, SegmentFrames, Ratio;
      var framesTotal := |features.inputFeatures|;
      if framesTotal == 0 {
        return Err("internal error: empty features");
      }
      if audioWindowSec.Some? && audioWindowSec.value <= 0.0 {
        return Err("audio_window_sec must be finite and > 0");
      }
      var start := FirstFrame(audioWindowSec, framesTotal);
      var expectedTokens := FeatExtractOutputLength(framesTotal - start);
      if start != 0 {
        audioCache := None;
        var windowed := ComputeAudioFeatures(start);
        if |windowed| != expectedTokens {
          return Err("audio_features length mismatch (windowed)");
        }
        return Ok(windowed);
      }
      assert features.inputFeatures[0..] == features.inputFeatures;
      var segmentFrames := AudioCacheSegmentFrames();
      if segmentFrames.None? {
        var whole := ComputeAudioFeatures(0);
        if |whole| != expectedTokens {
          return Err("audio_features length mismatch");
        }
        return Ok(whole);
      }
      if audioCache.Some? && audioCache.value.frames == framesTotal && audioCache.value.wavLenSamples == |features.wav|
        && audioCache.value.compressedMaxLog == features.compressedMaxLog
      {
        assert features.wav[..|features.wav|] == features.wav;
        return Ok(audioCache.value.audioFeatures);
      }
      var rows := FeaturesWithCache(segmentFrames.value);
      if rows.Err? {
        return rows;
      }
      if |rows.value| != expectedTokens {
        return Err("audio_features length mismatch after caching");
      }
      audioCache := Some(AudioFeaturesCache(framesTotal, |features.wav|, features.compressedMaxLog, rows.value));
      assert features.wav[..|features.wav|] == features.wav;
      return rows;
    }

    /** The rows of all frames: the cached ones of whole unchanged segments, and the rest encoded anew. */
    method FeaturesWithCache(segmentFrames: nat) returns (r: Outcome<seq<Row>>)
      requires Valid() && encoder.flash && segmentFrames == SegmentFrames(encoder) > 0 && features.inputFeatures != []
      ensures r == Ok(Encoded(encoder, features.inputFeatures))
      ensures |r.value| == FeatExtractOutputLength(|features.inputFeatures|)
    {
      hide Encoded, Features, FeatExtractOutputLength, TopLog, WellShaped, SegmentFrames, Ratio,
           RecomputeFromForStreamAppend;
      var framesTotal := |features.inputFeatures|;
      assert features.inputFeatures[0..] == features.inputFeatures;
      EncodedLength(encoder, features.inputFeatures);
      if audioCache.None? || audioCache.value.compressedMaxLog != features.compressedMaxLog ||
        audioCache.value.frames > framesTotal {
        var all := ComputeAudioFeatures(0);
        return Ok(all);
      }
      var cache := audioCache.value;
      var recomputeFrom := RecomputeFromForStreamAppend(cache.frames, segmentFrames);
      CachedPrefix(encoder, features.mel, features.wav, cache, recomputeFrom);
      if recomputeFrom == 0 {
        var all := ComputeAudioFeatures(0);
        return Ok(all);
      }
      if recomputeFrom > framesTotal {
        return Err("recompute_from exceeds frames_total");
      }
      var prefixTokens := FeatExtractOutputLength(recomputeFrom);
      if prefixTokens > |cache.audioFeatures| {
        return Err("prefix_tokens exceed cached_tokens");
      }
      RecomputeFrom(cache.frames, segmentFrames);
      var prefix := cache.audioFeatures[..prefixTokens];
      var tail := ComputeAudioFeatures(recomputeFrom);
      r := Ok(prefix + tail);
    }
  }
}
