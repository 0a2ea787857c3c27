/** Cutting long audio into chunks at quiet places. */
module AudioChunking {
  import opened Prelude

  datatype AudioChunk = AudioChunk(wav: seq<real>, offsetSec: real)

  function Abs(x: real): (r: real)
    ensures r >= 0.0 && (r == x || r + x == 0.0)
  {
    if x < 0.0 then -x else x
  }

  function Magnitudes(wav: seq<real>): (r: seq<real>)
    ensures |r| == |wav|
  {
    seq(|wav|, i requires 0 <= i < |wav| => Abs(wav[i]))
  }

  // ----- lengths in samples

  function MaxLen(sr: nat, maxChunkSec: real): (n: nat)
    requires maxChunkSec > 0.0
    ensures n >= 1
    ensures maxChunkSec * sr as real >= 1.0 ==> n as real <= maxChunkSec * sr as real < n as real + 1.0
    ensures maxChunkSec * sr as real < 1.0 ==> n == 1
  {
    Max((maxChunkSec * sr as real).Floor, 1)
  }

  /** How far from the target length the search for a cut may go. */
  function Expand(sr: nat, maxLen: nat): (n: nat)
    ensures n <= 5 * sr && 2 * n <= maxLen
    ensures n < 5 * sr ==> maxLen <= 2 * n + 1
  {
    Min(5 * sr, maxLen / 2)
  }

  /** A tenth of a second, and four samples at least. */
  function Win(sr: nat): (n: nat)
    ensures n >= 4
    ensures sr >= 40 ==> 10 * n <= sr < 10 * n + 10
    ensures sr < 40 ==> n == 4
  {
    Max(sr / 10, 4)
  }

  /** Half a second. */
  function MinLen(sr: nat): (n: nat)
    ensures 2 * n <= sr <= 2 * n + 1
  {
    sr / 2
  }

  // ----- the quietest place

  ghost function Energy(mags: seq<real>, pos: nat, win: nat): real
    requires pos + win <= |mags|
  {
    if win == 0 then 0.0 else Energy(mags, pos, win - 1) + mags[pos + win - 1]
  }

  lemma {:induction false} EnergyFromLeft(mags: seq<real>, pos: nat, win: nat)
    requires 0 < win && pos + win <= |mags|
    ensures Energy(mags, pos, win) == mags[pos] + Energy(mags, pos + 1, win - 1)
  {
    if win > 1 {
      EnergyFromLeft(mags, pos, win - 1);
    }
  }

  /** Sliding the window by one sample: one magnitude enters, one leaves. */
  lemma Slide(mags: seq<real>, pos: nat, win: nat)
    requires 0 < win && pos + 1 + win <= |mags|
    ensures Energy(mags, pos + 1, win) == Energy(mags, pos, win) + mags[pos + win] - mags[pos]
  {
    EnergyFromLeft(mags, pos, win);
  }

  /** The leftmost window with the least energy among those that start before `end`. */
  ghost predicate QuietestWindow(mags: seq<real>, win: nat, pos: nat, end: nat) {
    && end + win <= |mags| + 1
    && pos < end
    && (forall q: nat :: q < end ==> Energy(mags, pos, win) <= Energy(mags, q, win))
    && (forall q: nat :: q < pos ==> Energy(mags, pos, win) < Energy(mags, q, win))
  }

  /** The leftmost least element of `mags[from..to]`. */
  ghost predicate QuietestSample(mags: seq<real>, from: nat, to: nat, at: nat) {
    && from <= at < to <= |mags|
    && (forall q :: from <= q < to ==> mags[at] <= mags[q])
    && (forall q :: from <= q < at ==> mags[at] < mags[q])
  }

  method FindQuietestWindow(mags: seq<real>, win: nat) returns (minPos: nat)
    requires 0 < win < |mags|
    ensures QuietestWindow(mags, win, minPos, |mags| - win + 1)
  {
    var windowSum := 0.0;
    for i := 0 to win
      invariant windowSum == Energy(mags, 0, i)
    {
      windowSum := windowSum + mags[i];
    }
    var minSum := windowSum;
    minPos := 0;
    for pos := 1 to |mags| - win + 1
      invariant windowSum == Energy(mags, pos - 1, win)
      invariant QuietestWindow(mags, win, minPos, pos) && minSum == Energy(mags, minPos, win)
    {
      Slide(mags, pos - 1, win);
      windowSum := windowSum + mags[pos + win - 1];
      windowSum := windowSum - mags[pos - 1];
      if windowSum < minSum {
        minSum := windowSum;
        minPos := pos;
      }
    }
  }

  method FindQuietestSample(local: seq<real>) returns (innerPos: nat)
    requires local != []
    ensures QuietestSample(local, 0, |local|, innerPos)
  {
    innerPos := 0;
    var innerMin := local[0];
    for idx := 1 to |local|
      invariant QuietestSample(local, 0, idx, innerPos) && innerMin == local[innerPos]
    {
      if local[idx] < innerMin {
        innerMin := local[idx];
        innerPos := idx;
      }
    }
  }

  // ----- one cut

  datatype Params = Params(maxLen: nat, expand: nat, win: nat)

  ghost predicate Sensible(p: Params) {
    1 <= p.maxLen && p.expand <= p.maxLen / 2 && p.win >= 4
  }

  /** Where the search for the next cut looks. */
  function SearchLeft(p: Params, start: nat): (left: nat)
    ensures left >= start && (p.expand <= p.maxLen ==> left + p.expand == start + p.maxLen)
  {
    Max(Max(start + p.maxLen - p.expand, 0), start)
  }

  function SearchRight(p: Params, start: nat, total: nat): (right: nat)
    ensures right <= total && right - start <= p.maxLen + p.expand
    ensures right < total ==> right - start == p.maxLen + p.expand
  {
    Min(start + p.maxLen + p.expand, total)
  }

  /** The cut after `start`: at the target length when there is nothing to search; otherwise at the quietest
      sample of the quietest window, leftmost in both. */
  ghost predicate CutAt(wav: seq<real>, p: Params, start: nat, cut: nat) {
    var (left, right) := (SearchLeft(p, start), SearchRight(p, start, |wav|));
    if right - left <= p.win then cut == start + p.maxLen
    else exists pos: nat :: QuietCut(Magnitudes(wav[left..right]), p.win, pos, left, cut)
  }

  ghost predicate QuietCut(mags: seq<real>, win: nat, pos: nat, left: nat, cut: nat) {
    && win < |mags|
    && QuietestWindow(mags, win, pos, |mags| - win + 1)
    && left <= cut
    && QuietestSample(mags, pos, pos + win, cut - left)
  }

  method FindCut(wav: seq<real>, p: Params, start: nat) returns (cut: nat)
    requires Sensible(p) && start + p.maxLen < |wav|
    ensures CutAt(wav, p, start, cut)
  {
    cut := start + p.maxLen;
    var left := SearchLeft(p, start);
    var right := SearchRight(p, start, |wav|);
    if right - left > p.win {
      var mags := Magnitudes(wav[left..right]);
      var minPos := FindQuietestWindow(mags, p.win);
      var innerPos := FindQuietestSample(mags[minPos..minPos + p.win]);
      cut := left + minPos + innerPos;
      QuietCutFound(mags, minPos, p.win, left, innerPos);
      hide QuietCut;
      assert QuietCut(mags, p.win, minPos, left, cut);
    }

    // The clamps to `start + 1` and to the end of the audio change nothing.
    CutBounds(wav, p, start, cut);
    cut := Min(Max(cut, start + 1), |wav|);
  }

  lemma QuietCutFound(mags: seq<real>, pos: nat, win: nat, left: nat, inner: nat)
    requires win < |mags| && QuietestWindow(mags, win, pos, |mags| - win + 1) && pos + win <= |mags|
    requires QuietestSample(mags[pos..pos + win], 0, win, inner)
    ensures QuietCut(mags, win, pos, left, left + pos + inner)
  {
    hide QuietestWindow, QuietestSample;
    LocalSample(mags, pos, win, inner);
  }

  lemma LocalSample(mags: seq<real>, pos: nat, win: nat, inner: nat)
    requires pos + win <= |mags| && QuietestSample(mags[pos..pos + win], 0, win, inner)
    ensures QuietestSample(mags, pos, pos + win, pos + inner)
  {
    var local := mags[pos..pos + win];
    forall q | pos <= q < pos + win
      ensures mags[pos + inner] <= mags[q] && (q < pos + inner ==> mags[pos + inner] < mags[q])
    {
      assert mags[q] == local[q - pos];
    }
  }

  /** Every chunk but the last has between half and one and a half times the target length. */
  lemma CutBounds(wav: seq<real>, p: Params, start: nat, cut: nat)
    requires Sensible(p) && start + p.maxLen < |wav| && CutAt(wav, p, start, cut)
    ensures DivCeil(p.maxLen, 2) <= cut - start <= p.maxLen + p.maxLen / 2
    ensures start < cut < |wav|
  {
    var (left, right) := (SearchLeft(p, start), SearchRight(p, start, |wav|));
    assert DivCeil(p.maxLen, 2) == p.maxLen - p.maxLen / 2;
    if right - left > p.win {
      var pos: nat :| QuietCut(Magnitudes(wav[left..right]), p.win, pos, left, cut);
    }
  }

  /** There is only one such cut. */
  lemma CutUnique(wav: seq<real>, p: Params, start: nat, a: nat, b: nat)
    requires CutAt(wav, p, start, a) && CutAt(wav, p, start, b)
    ensures a == b
  {
    var (left, right) := (SearchLeft(p, start), SearchRight(p, start, |wav|));
    if right - left > p.win {
      hide QuietCut;
      var mags := Magnitudes(wav[left..right]);
      var s: nat :| QuietCut(mags, p.win, s, left, a);
      var t: nat :| QuietCut(mags, p.win, t, left, b);
      QuietCutUnique(mags, p.win, s, left, a, t, b);
    }
  }

  lemma QuietCutUnique(mags: seq<real>, win: nat, s: nat, left: nat, a: nat, t: nat, b: nat)
    requires QuietCut(mags, win, s, left, a) && QuietCut(mags, win, t, left, b)
    ensures a == b
  {
    hide Energy;
    assert Energy(mags, s, win) == Energy(mags, t, win);
    assert s == t;
    assert mags[a - left] == mags[b - left];
  }

  // ----- the whole split

  ghost function EndOf(starts: seq<nat>, total: nat, k: nat): nat
    requires k < |starts|
  {
    if k + 1 < |starts| then starts[k + 1] else total
  }

  /** The chunks' starts: each next one is the cut after the one before. */
  ghost predicate CutStarts(wav: seq<real>, p: Params, starts: seq<nat>) {
    && starts != []
    && starts[0] == 0
    && (forall k :: 0 <= k < |starts| ==> starts[k] <= |wav|)
    && (forall k: nat :: k + 1 < |starts| ==> Follows(wav, p, starts, k))
  }

  ghost predicate Follows(wav: seq<real>, p: Params, starts: seq<nat>, k: nat)
    requires k + 1 < |starts|
  {
    starts[k] + p.maxLen < |wav| && CutAt(wav, p, starts[k], starts[k + 1])
  }

  /** The starts reach the end: what is left fits one chunk. */
  ghost predicate Complete(wav: seq<real>, p: Params, starts: seq<nat>) {
    CutStarts(wav, p, starts) && |wav| - starts[|starts| - 1] <= p.maxLen
  }

  lemma {:induction false} StartsBelow(wav: seq<real>, p: Params, a: seq<nat>, b: seq<nat>, k: nat)
    requires Complete(wav, p, a) && CutStarts(wav, p, b) && k < |b|
    ensures k < |a| && a[k] == b[k]
  {
    if k > 0 {
      StartsBelow(wav, p, a, b, k - 1);
      assert Follows(wav, p, b, k - 1);
      assert Follows(wav, p, a, k - 1);
      CutUnique(wav, p, b[k - 1], a[k], b[k]);
    }
  }

  /** The audio determines its cuts. */
  lemma StartsUnique(wav: seq<real>, p: Params, a: seq<nat>, b: seq<nat>)
    requires Complete(wav, p, a) && Complete(wav, p, b)
    ensures a == b
  {
    StartsBelow(wav, p, a, b, |b| - 1);
    StartsBelow(wav, p, b, a, |a| - 1);
    forall k | 0 <= k < |a|
      ensures a[k] == b[k]
    {
      StartsBelow(wav, p, a, b, k);
    }
  }

  function Padded(wav: seq<real>, minLen: nat): (r: seq<real>)
    ensures wav <= r && |r| == Max(|wav|, minLen) && forall i :: |wav| <= i < |r| ==> r[i] == 0.0
  {
    wav + seq(Max(minLen - |wav|, 0), _ => 0.0)
  }

  /** The chunks hold the audio between their starts, zero-padded to the minimum length, with their offsets. */
  ghost predicate ChunksOf(wav: seq<real>, sr: nat, starts: seq<nat>, minLen: nat, chunks: seq<AudioChunk>)
    requires sr > 0
  {
    && |chunks| == |starts|
    && (forall k :: 0 <= k < |starts| ==> starts[k] <= EndOf(starts, |wav|, k) <= |wav|)
    && forall k :: 0 <= k < |starts| ==> chunks[k] == ChunkAt(wav, sr, starts[k], EndOf(starts, |wav|, k), minLen)
  }

  ghost function ChunkAt(wav: seq<real>, sr: nat, start: nat, end: nat, minLen: nat): AudioChunk
    requires sr > 0 && start <= end <= |wav|
  {
    AudioChunk(Padded(wav[start..end], minLen), start as real / sr as real)
  }

  /** A chunk's first `n` samples. */
  ghost function Trimmed(wav: seq<real>, n: int): seq<real> {
    if 0 <= n <= |wav| then wav[..n] else wav
  }

  /** The first `k` chunks joined, each cut back to the distance between its start and the next. */
  ghost function Unpadded(starts: seq<nat>, total: nat, chunks: seq<AudioChunk>, k: nat): seq<real>
    requires k <= |chunks| == |starts|
  {
    if k == 0 then [] else
      var last := Trimmed(chunks[k - 1].wav, EndOf(starts, total, k - 1) - starts[k - 1]);
      Unpadded(starts, total, chunks, k - 1) + last
  }

  lemma TrimmedChunk(wav: seq<real>, sr: nat, start: nat, end: nat, minLen: nat)
    requires sr > 0 && start <= end <= |wav|
    ensures Trimmed(ChunkAt(wav, sr, start, end, minLen).wav, end - start) == wav[start..end]
    ensures wav[..end] == wav[..start] + wav[start..end]
  {
  }

  /** Without their padding the chunks join to the audio. */
  lemma {:induction false} Rejoin(wav: seq<real>, sr: nat, starts: seq<nat>, minLen: nat, chunks: seq<AudioChunk>,
                                  k: nat)
    requires sr > 0 && starts != [] && starts[0] == 0 && ChunksOf(wav, sr, starts, minLen, chunks) && k < |starts|
    ensures EndOf(starts, |wav|, k) <= |wav| && Unpadded(starts, |wav|, chunks, k + 1) == wav[..EndOf(starts, |wav|, k)]
  {
    hide Trimmed, ChunkAt;
    TrimmedChunk(wav, sr, starts[k], EndOf(starts, |wav|, k), minLen);
    if k > 0 {
      Rejoin(wav, sr, starts, minLen, chunks, k - 1);
    } else {
      assert wav[..starts[0]] == Unpadded(starts, |wav|, chunks, 0);
    }
  }

  /** Cutting loses nothing: the chunks, cut back to the distances between their starts, join to the whole
      audio, and all but the last have between half and one and a half times the target length. */
  lemma SplitRejoins(wav: seq<real>, sr: nat, p: Params, starts: seq<nat>, minLen: nat, chunks: seq<AudioChunk>)
    requires sr > 0 && Sensible(p) && Complete(wav, p, starts) && ChunksOf(wav, sr, starts, minLen, chunks)
    ensures Unpadded(starts, |wav|, chunks, |chunks|) == wav
    ensures forall k: nat ::
              k + 1 < |starts| ==> DivCeil(p.maxLen, 2) <= starts[k + 1] - starts[k] <= p.maxLen + p.maxLen / 2
  {
    hide CutAt, ChunkAt, Trimmed;
    Rejoin(wav, sr, starts, minLen, chunks, |starts| - 1);
    assert wav[..|wav|] == wav;
    forall k: nat | k + 1 < |starts|
      ensures DivCeil(p.maxLen, 2) <= starts[k + 1] - starts[k] <= p.maxLen + p.maxLen / 2
    {
      assert Follows(wav, p, starts, k);
      CutBounds(wav, p, starts[k], starts[k + 1]);
    }
  }

  /** What the call returns: an error for invalid arguments, short audio as it is, and otherwise the chunks
      between the cuts. */
  ghost predicate SplitRight(wav: seq<real>, sr: nat, maxChunkSec: real, r: Outcome<seq<AudioChunk>>) {
    if sr == 0 || maxChunkSec <= 0.0 then r.Err?
    else if |wav| as real <= maxChunkSec * sr as real then r == Ok([AudioChunk(wav, 0.0)])
    else
      && r.Ok?
      && exists starts ::
           Complete(wav, ParamsOf(sr, maxChunkSec), starts) && ChunksOf(wav, sr, starts, MinLen(sr), r.value)
  }

  function ParamsOf(sr: nat, maxChunkSec: real): (p: Params)
    requires maxChunkSec > 0.0
  {
    Params(MaxLen(sr, maxChunkSec), Expand(sr, MaxLen(sr, maxChunkSec)), Win(sr))
  }

  method SplitAudioIntoChunks(wav: seq<real>, sr: nat, maxChunkSec: real) returns (r: Outcome<seq<AudioChunk>>)
    ensures SplitRight(wav, sr, maxChunkSec, r)
  {
    if sr == 0 {
      return Err("invalid sample_rate=0");
    }
    if maxChunkSec <= 0.0 {
      return Err("max_chunk_sec must be finite and > 0");
    }
    Seconds(|wav|, sr, maxChunkSec);
    if |wav| as real / sr as real <= maxChunkSec {
      return Ok([AudioChunk(wav, 0.0)]);
    }
    var p := ParamsOf(sr, maxChunkSec);
    var chunks: seq<AudioChunk>;
    ghost var starts: seq<nat>;
    chunks, starts := CutChunks(wav, sr, p);
    if MinLen(sr) > 0 {
      chunks := PadChunks(wav, sr, starts, MinLen(sr), chunks);
    }
    assert ChunksOf(wav, sr, starts, MinLen(sr), chunks);
    r := Ok(chunks);
  }

  /** The chunks as they are cut. */
  method CutChunks(wav: seq<real>, sr: nat, p: Params) returns (chunks: seq<AudioChunk>, ghost starts: seq<nat>)
    requires sr > 0 && Sensible(p)
    ensures Complete(wav, p, starts) && ChunksOf(wav, sr, starts, 0, chunks)
  {
    hide CutAt, ChunkAt;
    chunks := [];
    var start, offsetSec := 0, 0.0;
    starts := [0];
    while |wav| - start > p.maxLen
      invariant CutStarts(wav, p, starts) && |chunks| == |starts| - 1 && start == starts[|chunks|] <= |wav|
      invariant offsetSec == start as real / sr as real
      invariant forall k: nat :: k < |chunks| ==> CutChunk(wav, sr, starts, k, chunks[k])
      decreases |wav| - start
    {
      var boundary := FindCut(wav, p, start);
      CutBounds(wav, p, start, boundary);
      NextChunk(wav, sr, p, starts, boundary, chunks, AudioChunk(wav[start..boundary], offsetSec));
      chunks := chunks + [AudioChunk(wav[start..boundary], offsetSec)];
      AddSeconds(start, boundary - start, sr);
      offsetSec := offsetSec + (boundary - start) as real / sr as real;
      starts := starts + [boundary];
      start := boundary;
    }
    LastChunk(wav, sr, p, starts, chunks, AudioChunk(wav[start..|wav|], offsetSec));
    chunks := chunks + [AudioChunk(wav[start..|wav|], offsetSec)];
  }

  ghost predicate CutChunk(wav: seq<real>, sr: nat, starts: seq<nat>, k: nat, chunk: AudioChunk)
    requires sr > 0 && k + 1 < |starts|
  {
    starts[k] <= starts[k + 1] <= |wav| && chunk == ChunkAt(wav, sr, starts[k], starts[k + 1], 0)
  }

  lemma RawChunk(wav: seq<real>, sr: nat, start: nat, end: nat)
    requires sr > 0 && start <= end <= |wav|
    ensures ChunkAt(wav, sr, start, end, 0) == AudioChunk(wav[start..end], start as real / sr as real)
  {
    assert Padded(wav[start..end], 0) == wav[start..end];
  }

  lemma NextChunk(wav: seq<real>, sr: nat, p: Params, starts: seq<nat>, next: nat, chunks: seq<AudioChunk>,
                  chunk: AudioChunk)
    requires sr > 0 && CutStarts(wav, p, starts) && |chunks| == |starts| - 1
    requires starts[|chunks|] + p.maxLen < |wav| && starts[|chunks|] <= next <= |wav|
    requires CutAt(wav, p, starts[|chunks|], next)
    requires chunk == AudioChunk(wav[starts[|chunks|]..next], starts[|chunks|] as real / sr as real)
    requires forall k: nat :: k < |chunks| ==> CutChunk(wav, sr, starts, k, chunks[k])
    ensures CutStarts(wav, p, starts + [next])
    ensures forall k: nat :: k < |chunks| + 1 ==> CutChunk(wav, sr, starts + [next], k, (chunks + [chunk])[k])
  {
    hide CutAt, ChunkAt;
    RawChunk(wav, sr, starts[|chunks|], next);
    forall k: nat | k + 1 < |starts + [next]|
      ensures Follows(wav, p, starts + [next], k)
    {
      if k + 1 < |starts| {
        assert Follows(wav, p, starts, k);
      }
    }
    forall k: nat | k < |chunks| + 1
      ensures CutChunk(wav, sr, starts + [next], k, (chunks + [chunk])[k])
    {
      if k < |chunks| {
        assert CutChunk(wav, sr, starts, k, chunks[k]);
      }
    }
  }

  lemma LastChunk(wav: seq<real>, sr: nat, p: Params, starts: seq<nat>, chunks: seq<AudioChunk>, chunk: AudioChunk)
    requires sr > 0 && CutStarts(wav, p, starts) && |chunks| == |starts| - 1
    requires chunk == AudioChunk(wav[starts[|chunks|]..|wav|], starts[|chunks|] as real / sr as real)
    requires forall k: nat :: k < |chunks| ==> CutChunk(wav, sr, starts, k, chunks[k])
    ensures ChunksOf(wav, sr, starts, 0, chunks + [chunk])
  {
    hide CutAt, ChunkAt;
    RawChunk(wav, sr, starts[|chunks|], |wav|);
    forall k: nat | k < |starts|
      ensures starts[k] <= EndOf(starts, |wav|, k) <= |wav|
      ensures (chunks + [chunk])[k] == ChunkAt(wav, sr, starts[k], EndOf(starts, |wav|, k), 0)
    {
      if k < |chunks| {
        assert CutChunk(wav, sr, starts, k, chunks[k]);
      }
    }
  }

  /** Too short chunks are filled up with silence. */
  method PadChunks(wav: seq<real>, sr: nat, ghost starts: seq<nat>, minLen: nat, raw: seq<AudioChunk>)
    returns (chunks: seq<AudioChunk>)
    requires sr > 0 && ChunksOf(wav, sr, starts, 0, raw)
    ensures ChunksOf(wav, sr, starts, minLen, chunks)
  {
    chunks := raw;
    for k := 0 to |chunks|
      invariant |chunks| == |raw|
      invariant forall l ::
                0 <= l < |chunks| ==>
                  chunks[l] == if l < k then ChunkAt(wav, sr, starts[l], EndOf(starts, |wav|, l), minLen) else raw[l]
    {
      RawChunk(wav, sr, starts[k], EndOf(starts, |wav|, k));
      if |chunks[k].wav| < minLen {
        chunks := chunks[k := chunks[k].(wav := Padded(chunks[k].wav, minLen))];
      }
    }
  }

  lemma Seconds(n: nat, sr: nat, sec: real)
    requires sr > 0
    ensures n as real / sr as real <= sec <==> n as real <= sec * sr as real
  {
    var d := n as real / sr as real;
    assert d * sr as real == n as real;
    if d <= sec {
      assert (sec - d) * sr as real >= 0.0;
    } else {
      assert (d - sec) * sr as real > 0.0;
    }
  }

  lemma AddSeconds(a: nat, b: nat, sr: nat)
    requires sr > 0
    ensures a as real / sr as real + b as real / sr as real == (a + b) as real / sr as real
  {
  }
}
