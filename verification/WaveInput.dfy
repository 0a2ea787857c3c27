/** The inputs of an admit wave: rows padded to the longest prompt of the wave, and the audio of its
    clients back to back. Each row means exactly what its client means alone. */
module WaveInput {
  import opened Prelude
  import opened Decoding
  import opened PagedKvCache
  import opened PrefillInput
  import opened PagedBatchPrefill

  /** One prepared segment: token ids with audio placeholders, which of them are real, and the spectrogram
      the audio rows are encoded from. */
  datatype PreparedInputs = PreparedInputs(inputIds: seq<Token>, attentionMask: seq<nat>, inputFeatures: seq<real>)

  function PromptLen(row: PreparedInputs): nat {
    MaskLen(row.attentionMask)
  }

  /** The prompt's tokens; a row shorter than its mask claims is rejected when its wave is built. */
  function ClientTokens(row: PreparedInputs): (tokens: seq<Token>)
  {
    row.inputIds[..Min(PromptLen(row), |row.inputIds|)]
  }

  function ClientRows(prepared: seq<PreparedInputs>): (rows: seq<seq<Token>>)
    ensures |rows| == |prepared|
  {
    seq(|prepared|, i requires 0 <= i < |prepared| => ClientTokens(prepared[i]))
  }

  function PromptLensOf(prepared: seq<PreparedInputs>): (lens: seq<nat>)
    ensures |lens| == |prepared|
  {
    seq(|prepared|, i requires 0 <= i < |prepared| => PromptLen(prepared[i]))
  }

  /** What the preparation guarantees: real tokens first, and no placeholder among the padding. */
  ghost predicate CleanRow(row: PreparedInputs, audioId: Token) {
    && RightPadded(row.attentionMask)
    && CountAudio(row.inputIds[Min(PromptLen(row), |row.inputIds|)..], audioId) == 0
  }

  lemma CleanCount(row: PreparedInputs, audioId: Token)
    requires CleanRow(row, audioId)
    ensures CountAudio(row.inputIds, audioId) == CountAudio(ClientTokens(row), audioId)
  {
    var cut := Min(PromptLen(row), |row.inputIds|);
    assert row.inputIds == row.inputIds[..cut] + row.inputIds[cut..];
    CountAudioConcat(row.inputIds[..cut], row.inputIds[cut..], audioId);
  }

  /** Every row of the wave has its tokens, and some row has one. */
  predicate WaveRowsOk(rows: seq<PreparedInputs>) {
    (exists k :: 0 <= k < |rows| && PromptLen(rows[k]) > 0) && forall k :: 0 <= k < |rows| ==>
      PromptLen(rows[k]) <= |rows[k].inputIds|
  }

  function Padding<T>(n: nat, x: T): (p: seq<T>)
    ensures |p| == n && forall i :: 0 <= i < n ==> p[i] == x
  {
    seq(n, _ => x)
  }

  function PaddedIds(row: PreparedInputs, len: nat, padId: Token): (ids: seq<Token>)
    requires PromptLen(row) <= |row.inputIds| && PromptLen(row) <= len
    ensures |ids| == len
  {
    row.inputIds[..PromptLen(row)] + Padding(len - PromptLen(row), padId)
  }

  function PaddedMask(row: PreparedInputs, len: nat): (mask: seq<nat>)
    requires PromptLen(row) <= len
    ensures |mask| == len
  {
    row.attentionMask[..PromptLen(row)] + Padding(len - PromptLen(row), 0)
  }

  /** The padded rows of a wave. */
  ghost predicate WaveBatch(rows: seq<PreparedInputs>, len: nat, padId: Token, ids: seq<seq<Token>>,
                            masks: seq<seq<nat>>)
  {
    && |ids| == |masks| == |rows|
    && forall k :: 0 <= k < |rows| ==> PaddedWaveRow(rows[k], len, padId, ids[k], masks[k])
  }

  ghost predicate PaddedWaveRow(row: PreparedInputs, len: nat, padId: Token, ids: seq<Token>, mask: seq<nat>) {
    && PromptLen(row) <= |row.inputIds| && PromptLen(row) <= len
    && ids == PaddedIds(row, len, padId) && mask == PaddedMask(row, len)
  }

  /** Right-pad the rows of a wave to its longest prompt. */
  method PadPreparedWaveForPrefill(rows: seq<PreparedInputs>, padId: Token)
    returns (r: Outcome<(seq<seq<Token>>, seq<seq<nat>>)>)
    ensures r.Ok? <==> WaveRowsOk(rows)
    ensures r.Ok? ==>
              |r.value.0| == |rows| > 0 && |r.value.0[0]| > 0 &&
                WaveBatch(rows, |r.value.0[0]|, padId, r.value.0, r.value.1)
  {
    if rows == [] {
      return Err("pad_prepared_wave_for_prefill requires at least one row");
    }
    var maxPromptLen := 0;
    for k := 0 to |rows|
      invariant forall j :: 0 <= j < k ==> PromptLen(rows[j]) <= maxPromptLen
      invariant maxPromptLen > 0 ==> exists j :: 0 <= j < k && PromptLen(rows[j]) > 0
    {
      maxPromptLen := Max(maxPromptLen, PromptLen(rows[k]));
    }
    if maxPromptLen == 0 {
      assert !WaveRowsOk(rows);
      return Err("admit wave contains zero-length prompts");
    }
    ghost var longest :| 0 <= longest < |rows| && PromptLen(rows[longest]) > 0;
    var idsRows: seq<seq<Token>> := [];
    var attnRows: seq<seq<nat>> := [];
    for k := 0 to |rows|
      invariant forall j :: 0 <= j < k ==> PromptLen(rows[j]) <= |rows[j].inputIds|
      invariant |idsRows| == |attnRows| == k
      invariant forall j ::
                0 <= j < k ==>
                  idsRows[j] == PaddedIds(rows[j], maxPromptLen, padId) &&
                    attnRows[j] == PaddedMask(rows[j], maxPromptLen)
    {
      var promptLen := PromptLen(rows[k]);
      if promptLen > |rows[k].inputIds| {
        assert !WaveRowsOk(rows);
        return Err("effective prompt len exceeds row capacity");
      }
      idsRows := idsRows + [rows[k].inputIds[..promptLen] + Padding(maxPromptLen - promptLen, padId)];
      attnRows := attnRows + [rows[k].attentionMask[..promptLen] + Padding(maxPromptLen - promptLen, 0)];
    }
    assert WaveRowsOk(rows);
    r := Ok((idsRows, attnRows));
  }

  lemma {:induction false} ZeroMask(mask: seq<nat>, zeroes: seq<nat>)
    requires forall p :: 0 <= p < |zeroes| ==> zeroes[p] == 0
    ensures MaskLen(mask + zeroes) == MaskLen(mask)
  {
    if zeroes == [] {
      assert mask + zeroes == mask;
    } else {
      var k := |zeroes| - 1;
      ZeroMask(mask, zeroes[..k]);
      assert (mask + zeroes)[..|mask + zeroes| - 1] == mask + zeroes[..k];
    }
  }

  /** A padded row shows the prefill its client's own tokens. */
  lemma PaddedRowMeans(row: PreparedInputs, len: nat, padId: Token, audioId: Token)
    requires CleanRow(row, audioId) && PromptLen(row) <= |row.inputIds| && PromptLen(row) <= len && padId != audioId
    ensures var ids, mask := PaddedIds(row, len, padId), PaddedMask(row, len);
            && MaskLen(mask) == PromptLen(row)
            && Visible(ids, mask) == ClientTokens(row)
            && CleanPadding(ids, mask, audioId)
  {
    var n := PromptLen(row);
    var ids, mask := PaddedIds(row, len, padId), PaddedMask(row, len);
    RightPaddedMask(row.attentionMask);
    MaskLenFull(row.attentionMask[..n]);
    ZeroMask(row.attentionMask[..n], Padding(len - n, 0));
    assert forall p :: 0 <= p < len ==> (mask[p] != 0 <==> p < n);
    VisiblePrefix(ids, mask);
    assert ids[..n] == row.inputIds[..n];
  }

  // ----- audio

  /** The audio rows of the clients `first..first + w`. */
  function WaveAudio(rows: seq<seq<Token>>, audioId: Token, audio: seq<AudioRow>, first: nat, w: nat): seq<AudioRow>
    requires first + w <= |rows| && AudioOffset(rows, audioId, |rows|) <= |audio|
  {
    AudioOffsetMonotone(rows, audioId, first, first + w);
    AudioOffsetMonotone(rows, audioId, first + w, |rows|);
    audio[AudioOffset(rows, audioId, first)..AudioOffset(rows, audioId, first + w)]
  }

  lemma {:induction false} OffsetShift(rows: seq<seq<Token>>, audioId: Token, first: nat, w: nat, k: nat)
    requires first + w <= |rows| && k <= w
    ensures AudioOffset(rows[first..first + w], audioId, k) ==
              AudioOffset(rows, audioId, first + k) - AudioOffset(rows, audioId, first)
  {
    if k > 0 {
      OffsetShift(rows, audioId, first, w, k - 1);
    }
  }

  lemma WaveAudioOf(rows: seq<seq<Token>>, audioId: Token, audio: seq<AudioRow>, first: nat, w: nat, k: nat)
    requires first + w <= |rows| && AudioOffset(rows, audioId, |rows|) <= |audio| && k < w
    ensures AudioOffset(rows[first..first + w], audioId, w) == |WaveAudio(rows, audioId, audio, first, w)|
    ensures AudioOf(rows[first..first + w], audioId, WaveAudio(rows, audioId, audio, first, w), k) ==
              AudioOf(rows, audioId, audio, first + k)
  {
    hide AudioOffset, CountAudio;
    OffsetShift(rows, audioId, first, w, w);
    OffsetShift(rows, audioId, first, w, k);
    OffsetShift(rows, audioId, first, w, k + 1);
    AudioOffsetMonotone(rows, audioId, first, first + k);
    AudioOffsetMonotone(rows, audioId, first + k, first + k + 1);
    AudioOffsetMonotone(rows, audioId, first + k + 1, first + w);
    AudioOffsetMonotone(rows, audioId, first + w, |rows|);
    SliceOfSlice(audio, AudioOffset(rows, audioId, first), AudioOffset(rows, audioId, first + w),
                 AudioOffset(rows, audioId, first + k), AudioOffset(rows, audioId, first + k + 1));
  }

  lemma SliceOfSlice(audio: seq<AudioRow>, a: nat, b: nat, c: nat, d: nat)
    requires a <= c <= d <= b <= |audio|
    ensures audio[a..b][c - a..d - a] == audio[c..d]
  {
    assert forall i :: 0 <= i < d - c ==> audio[a..b][c - a..d - a][i] == audio[a..b][c - a + i] == audio[c..d][i];
  }

  /** Filling a wave's rows with the wave's audio gives each of them its own. */
  lemma WavePromptsMean(rows: seq<seq<Token>>, audioId: Token, audio: seq<AudioRow>, first: nat, w: nat)
    requires first + w <= |rows| && AudioOffset(rows, audioId, |rows|) <= |audio| && w > 0
    ensures AudioOffset(rows[first..first + w], audioId, w) == |WaveAudio(rows, audioId, audio, first, w)|
    ensures Prompts(rows[first..first + w], audioId, WaveAudio(rows, audioId, audio, first, w)) ==
              Prompts(rows, audioId, audio)[first..first + w]
  {
    hide AudioOffset, CountAudio, AudioOf, WaveAudio, Merge;
    var wave, own := rows[first..first + w], WaveAudio(rows, audioId, audio, first, w);
    WaveAudioOf(rows, audioId, audio, first, w, 0);
    forall k | 0 <= k < w
      ensures AudioOf(wave, audioId, own, k) == AudioOf(rows, audioId, audio, first + k)
    {
      WaveAudioOf(rows, audioId, audio, first, w, k);
    }
  }

  lemma WaveAudioStep(rows: seq<seq<Token>>, audioId: Token, audio: seq<AudioRow>, first: nat, k: nat)
    requires first + k < |rows| && AudioOffset(rows, audioId, |rows|) <= |audio|
    ensures WaveAudio(rows, audioId, audio, first, 0) == []
    ensures var from := AudioOffset(rows, audioId, first + k);
            && from + CountAudio(rows[first + k], audioId) <= |audio|
            && WaveAudio(rows, audioId, audio, first, k + 1) ==
              WaveAudio(rows, audioId, audio, first, k) + audio[from..from + CountAudio(rows[first + k], audioId)]
  {
    AudioOffsetMonotone(rows, audioId, first, first + k);
    AudioOffsetMonotone(rows, audioId, first + k + 1, |rows|);
    AudioOffsetMonotone(rows, audioId, first, |rows|);
    assert AudioOffset(rows, audioId, first + k + 1) ==
      AudioOffset(rows, audioId, first + k) + CountAudio(rows[first + k], audioId);
  }

  /** Concatenate the clients' audio slices. */
  method ConcatPreparedAudio(audio: seq<AudioRow>, offsets: seq<nat>, lens: seq<nat>, first: nat, w: nat,
                             ghost rows: seq<seq<Token>>, ghost audioId: Token)
    returns (r: Outcome<seq<AudioRow>>)
    requires |offsets| == |lens| == |rows| && first + w <= |rows| && AudioOffset(rows, audioId, |rows|) <= |audio|
    requires forall c ::
              0 <= c < |rows| ==> offsets[c] == AudioOffset(rows, audioId, c) && lens[c] == CountAudio(rows[c], audioId)
    ensures r.Ok? <==> w > 0
    ensures r.Ok? ==> r.value == WaveAudio(rows, audioId, audio, first, w)
  {
    hide AudioOffset, CountAudio, WaveAudio;
    if w == 0 {
      return Err("concat_prepared_audio requires at least one row");
    }
    var out: seq<AudioRow> := [];
    WaveAudioStep(rows, audioId, audio, first, 0);
    for k := 0 to w
      invariant out == WaveAudio(rows, audioId, audio, first, k)
    {
      WaveAudioStep(rows, audioId, audio, first, k);
      out := out + audio[offsets[first + k]..offsets[first + k] + lens[first + k]];
    }
    r := Ok(out);
  }

  /** The prefill of a wave sees its clients' lengths and tokens. */
  lemma WaveBatchMeans(prepared: seq<PreparedInputs>, first: nat, w: nat, len: nat, padId: Token, audioId: Token,
                       ids: seq<seq<Token>>, masks: seq<seq<nat>>)
    requires first + w <= |prepared| && WaveBatch(prepared[first..first + w], len, padId, ids, masks)
    requires padId != audioId
    requires forall i :: 0 <= i < |prepared| ==> CleanRow(prepared[i], audioId)
    ensures SameLength(ids, masks, len) && CleanBatch(ids, masks, audioId)
    ensures MaskLens(masks) == PromptLensOf(prepared)[first..first + w]
    ensures VisibleRows(ids, masks) == ClientRows(prepared)[first..first + w]
  {
    hide CleanRow, CleanPadding, MaskLen, Visible, PaddedIds, PaddedMask, ClientTokens;
    forall k | 0 <= k < w
      ensures |ids[k]| == |masks[k]| == len
      ensures MaskLen(masks[k]) == PromptLen(prepared[first + k])
      ensures Visible(ids[k], masks[k]) == ClientTokens(prepared[first + k])
      ensures CleanPadding(ids[k], masks[k], audioId)
    {
      assert PaddedWaveRow(prepared[first..first + w][k], len, padId, ids[k], masks[k]);
      PaddedRowMeans(prepared[first + k], len, padId, audioId);
    }
  }

  /** The prefill of a wave gets the clients' own prompts. */
  lemma WaveBatchPrompts(prepared: seq<PreparedInputs>, first: nat, w: nat, len: nat, padId: Token, audioId: Token,
                         audio: seq<AudioRow>, ids: seq<seq<Token>>, masks: seq<seq<nat>>)
    requires first + w <= |prepared| && w > 0 && WaveBatch(prepared[first..first + w], len, padId, ids, masks)
    requires padId != audioId
    requires forall i :: 0 <= i < |prepared| ==> CleanRow(prepared[i], audioId)
    requires AudioOffset(ClientRows(prepared), audioId, |prepared|) <= |audio|
    ensures var own := WaveAudio(ClientRows(prepared), audioId, audio, first, w);
            && SameLength(ids, masks, len)
            && AudioOffset(VisibleRows(ids, masks), audioId, w) == |own|
            && BatchPrompts(ids, masks, audioId, own) == Prompts(ClientRows(prepared), audioId, audio)[first..first + w]
  {
    hide CleanRow, CleanPadding, AudioOffset, CountAudio, WaveBatch, Prompts, WaveAudio, ClientRows, VisibleRows;
    WaveBatchMeans(prepared, first, w, len, padId, audioId, ids, masks);
    WavePromptsMean(ClientRows(prepared), audioId, audio, first, w);
    OwnAll(WaveAudio(ClientRows(prepared), audioId, audio, first, w), VisibleRows(ids, masks), audioId);
  }
}
