/** The prefill of the batch engine: normalise the rows, allocate, run one forward pass in either
    layout, gather each prompt's last choice. */
module PagedBatchPrefill {
  import opened Prelude
  import opened Decoding
  import opened BlockPool
  import opened SlotMapping
  import opened PagedKvCache
  import opened PagedCacheRuntime
  import opened DecodeStep
  import opened DecodeSoundness
  import opened PrefillInput

  /** Pick every prompt's last token out of packed logits. */
  method GatherLastLogitsForPackedPromptLens(logits: seq<Token>, lens: seq<nat>) returns (r: Outcome<seq<Token>>)
    ensures r.Ok? <==> (forall i :: 0 <= i < |lens| ==> lens[i] > 0) && RowOffset(lens, |lens|) == |logits|
    ensures r.Ok? ==> |r.value| == |lens| && forall i :: 0 <= i < |lens| ==>
              LastIndexes(lens, lens)[i] < |logits| && r.value[i] == logits[LastIndexes(lens, lens)[i]]
  {
    var gatherIdx: seq<nat> := [];
    var offset := 0;
    assert RowOffset(lens, 0) == 0;
    hide RowOffset;
    for i := 0 to |lens|
      invariant forall k :: 0 <= k < i ==> lens[k] > 0
      invariant offset == RowOffset(lens, i) <= |logits|
      invariant |gatherIdx| == i
      invariant forall k :: 0 <= k < i ==> gatherIdx[k] == RowOffset(lens, k) + lens[k] - 1 < |logits|
    {
      if lens[i] == 0 {
        return Err("prompt length must be > 0");
      }
      RowOffsetStep(lens, i);
      var idx := offset + lens[i] - 1;
      if idx >= |logits| {
        return Err("packed prompt length exceeds logits");
      }
      gatherIdx := gatherIdx + [idx];
      offset := offset + lens[i];
    }
    if offset != |logits| {
      return Err("packed prompt total mismatch");
    }
    assert gatherIdx == LastIndexes(lens, lens);
    r := Ok(IndexSelect(logits, gatherIdx));
  }

  function IndexSelect(logits: seq<Token>, idx: seq<nat>): (selected: seq<Token>)
    requires forall k :: 0 <= k < |idx| ==> idx[k] < |logits|
    ensures |selected| == |idx| && forall k :: 0 <= k < |idx| ==> selected[k] == logits[idx[k]]
  {
    seq(|idx|, k requires 0 <= k < |idx| => logits[idx[k]])
  }

  lemma {:induction false} SumOfEqual(lens: seq<nat>, width: nat)
    requires forall i :: 0 <= i < |lens| ==> lens[i] == width
    ensures Sum(lens) == |lens| * width
  {
    if lens != [] {
      SumOfEqual(lens[..|lens| - 1], width);
    }
  }

  /** Pick every prompt's last token out of padded logits, `seqLen` per row. */
  method GatherLastLogitsForPromptLens(logits: seq<Token>, seqLen: nat, widths: seq<nat>, lens: seq<nat>)
    returns (r: Outcome<seq<Token>>)
    requires |widths| == |lens| && Sum(widths) == |logits|
    requires forall i :: 0 <= i < |widths| ==> widths[i] == seqLen
    ensures r.Ok? <==> forall i :: 0 <= i < |lens| ==> 0 < lens[i] <= seqLen
    ensures r.Ok? ==> |r.value| == |lens| && forall i :: 0 <= i < |lens| ==>
              LastIndexes(widths, lens)[i] < |logits| && r.value[i] == logits[LastIndexes(widths, lens)[i]]
  {
    var gatherIdx: seq<nat> := [];
    for i := 0 to |lens|
      invariant forall k :: 0 <= k < i ==> 0 < lens[k] <= seqLen
      invariant |gatherIdx| == i
      invariant forall k :: 0 <= k < i ==> gatherIdx[k] == RowOffset(widths, k) + lens[k] - 1 < |logits|
    {
      if lens[i] == 0 || lens[i] > seqLen {
        return Err("prompt length out of range");
      }
      SumOfEqual(widths[..i], seqLen);
      RowOffsetStep(widths, i);
      assert widths[..|widths|] == widths;
      gatherIdx := gatherIdx + [i * seqLen + (lens[i] - 1)];
    }
    assert gatherIdx == LastIndexes(widths, lens);
    r := Ok(IndexSelect(logits, gatherIdx));
  }

  /** What the two layouts are given: allocated tables, and rows whose first tokens are the prompts. */
  ghost predicate PrefillReady(rt: PagedCacheRuntime, ids: seq<nat>, rows: seq<seq<Token>>, masks: seq<seq<nat>>,
                               vis: seq<seq<Token>>, lens: seq<nat>, seqLen: nat, audioId: Token)
    reads rt.manager, rt.cache
  {
    && rt.Valid()
    && PromptTables(rt.manager.View(), rt.cache.numBlocks, ids, lens)
    && |rows| == |ids|
    && PaddedBatch(rows, masks, vis, lens, seqLen, audioId)
  }

  lemma TablesNonEmpty(p: Pool, numBlocks: nat, ids: seq<nat>, lens: seq<nat>)
    requires PromptTables(p, numBlocks, ids, lens)
    ensures MaxOf(Lengths(Tables(p, ids))) > 0
    ensures PackedOk(Tables(p, ids), lens, p.blockSize, numBlocks)
  {
    hide PackedRowOk, Covers, MaxOf;
    var tables := Tables(p, ids);
    forall s | 0 <= s < |ids|
      ensures |tables[s]| > 0 && PackedRowOk(tables[s], lens[s], p.blockSize, numBlocks)
    {
      CoveredRowOk(p, numBlocks, ids[s], lens[s]);
    }
    MaxOfIsMax(Lengths(tables));
    assert Lengths(tables)[0] == |tables[0]|;
  }

  lemma CoveredRowOk(p: Pool, numBlocks: nat, id: nat, len: nat)
    requires Valid(p, numBlocks) && len > 0 && Covers(Table(p, id), p.blockSize, len)
    ensures |Table(p, id)| > 0 && PackedRowOk(Table(p, id), len, p.blockSize, numBlocks)
  {
    var t := Table(p, id);
    TableInPool(p, id, numBlocks);
    CoveredSlots(t, p.blockSize, len);
    hide BlockPool.Valid, Covers;
    forall j | 0 <= j < len
      ensures SlotExists(t, p.blockSize, numBlocks, j)
    {
      assert t[j / p.blockSize] in t;
    }
  }

  lemma PaddedOkToo(p: Pool, numBlocks: nat, ids: seq<nat>, rows: seq<seq<Token>>, masks: seq<seq<nat>>,
                    vis: seq<seq<Token>>, lens: seq<nat>, seqLen: nat, audioId: Token)
    requires PromptTables(p, numBlocks, ids, lens) && PaddedBatch(rows, masks, vis, lens, seqLen, audioId)
    requires |rows| == |ids|
    ensures PaddedOk(Tables(p, ids), masks, p.blockSize, numBlocks)
    ensures Lengths(masks) == Lengths(rows) && Lengths(vis) == lens
  {
    forall r | 0 <= r < |masks|
      ensures |rows[r]| == |masks[r]| == seqLen && RightPadded(masks[r]) && MaskLen(masks[r]) == lens[r] == |vis[r]| > 0
    {
      assert PaddedRow(rows[r], masks[r], vis[r], lens[r], seqLen, audioId);
    }
    TablesNonEmpty(p, numBlocks, ids, lens);
    assert MaskLens(masks) == lens;
    PaddedAgreesWithPacked(Tables(p, ids), masks, p.blockSize, numBlocks);
  }

  /** Packed layout: the prompts' tokens and audio rows back to back. */
  method PackTokens(audioId: Token, rows: seq<seq<Token>>, lens: seq<nat>, audio: seq<AudioRow>,
                    ghost vis: seq<seq<Token>>)
    returns (r: Outcome<(seq<Token>, seq<AudioRow>)>)
    requires |rows| == |lens| == |vis|
    requires forall i :: 0 <= i < |rows| ==> lens[i] <= |rows[i]| && rows[i][..lens[i]] == vis[i]
    ensures r.Ok? <==> AudioOffset(vis, audioId, |vis|) <= |audio|
    ensures r.Ok? ==> r.value == (Flatten(vis), audio[..AudioOffset(vis, audioId, |vis|)])
  {
    var packedIds: seq<Token> := [];
    var packedAudio: seq<AudioRow> := [];
    var audioOffset := 0;
    for i := 0 to |rows|
      invariant packedIds == Flatten(vis[..i])
      invariant audioOffset == AudioOffset(vis, audioId, i) <= |audio|
      invariant packedAudio == audio[..audioOffset]
    {
      FlattenPrefix(vis, i);
      AudioOffsetMonotone(vis, audioId, i + 1, |vis|);
      packedIds := packedIds + rows[i][..lens[i]];
      var rowAudioTokens := CountAudio(rows[i][..lens[i]], audioId);
      if audioOffset + rowAudioTokens > |audio| {
        return Err("narrow out of range");
      }
      packedAudio := packedAudio + audio[audioOffset..audioOffset + rowAudioTokens];
      audioOffset := audioOffset + rowAudioTokens;
    }
    assert vis[..|rows|] == vis;
    r := Ok((packedIds, packedAudio));
  }

  /** The packed forward pass and its gather. */
  method PackedForward(net: Network, rt: PagedCacheRuntime, audioId: Token, ghost ids: seq<nat>, tables: seq<seq<nat>>,
                       rows: seq<seq<Token>>, ghost masks: seq<seq<nat>>,
                       ghost vis: seq<seq<Token>>, lens: seq<nat>, ghost seqLen: nat, audio: seq<AudioRow>)
    returns (r: Outcome<seq<Token>>)
    requires PrefillReady(rt, ids, rows, masks, vis, lens, seqLen, audioId) && tables == Tables(rt.manager.View(), ids)
    modifies rt.cache
    ensures r.Ok? <==> AudioOffset(vis, audioId, |vis|) <= |audio|
    ensures r.Ok? ==>
              PrefillDone(net, rt.manager.View(), old(rt.cache.kv), rt.cache.kv, ids,
                          Prompts(vis, audioId, audio[..AudioOffset(vis, audioId, |vis|)]), r.value)
    ensures r.Err? ==> rt.cache.kv == old(rt.cache.kv)
  {
    hide Merge, WriteRows, RowLogits, Split, PrefillDone, Prompts, Flatten, Cached;
    forall i | 0 <= i < |rows|
      ensures lens[i] <= |rows[i]| && rows[i][..lens[i]] == vis[i] && lens[i] == |vis[i]|
    {
      assert PaddedRow(rows[i], masks[i], vis[i], lens[i], seqLen, audioId);
    }
    assert Lengths(vis) == lens;
    var packed := PackTokens(audioId, rows, lens, audio, vis);
    if packed.Err? {
      return Err(packed.error);
    }
    r := ForwardPacked(net, rt, audioId, ids, tables, vis, lens, packed.value.0, packed.value.1);
  }

  method ForwardPacked(net: Network, rt: PagedCacheRuntime, audioId: Token, ghost ids: seq<nat>, tables: seq<seq<nat>>,
                       ghost vis: seq<seq<Token>>, lens: seq<nat>,
                       packedIds: seq<Token>, packedAudio: seq<AudioRow>) returns (r: Outcome<seq<Token>>)
    requires rt.Valid() && PromptTables(rt.manager.View(), rt.cache.numBlocks, ids, lens)
    requires tables == Tables(rt.manager.View(), ids)
    requires Lengths(vis) == lens && AudioOffset(vis, audioId, |vis|) == |packedAudio| && packedIds == Flatten(vis)
    modifies rt.cache
    ensures r.Ok?
    ensures PrefillDone(net, rt.manager.View(), old(rt.cache.kv), rt.cache.kv, ids, Prompts(vis, audioId, packedAudio),
                        r.value)
  {
    hide Merge, WriteRows, RowLogits, Split, PrefillDone, Prompts, Flatten, Cached, RowOffset;
    PackedRecovered(tables, rt.manager.blockSize, vis, lens, audioId, packedAudio);
    var items := Merge(packedIds, audioId, packedAudio);
    ghost var p, kv := rt.manager.View(), rt.cache.kv;
    TablesNonEmpty(p, rt.cache.numBlocks, ids, lens);
    var metadata := rt.cache.InputMetadataFromQueryLens(tables, lens);
    var logits := ForwardPrompts(net, rt, metadata.value, lens, items, Flatten(PositionRows(lens)));
    RowOffsetTotal(lens);
    r := GatherLastLogitsForPackedPromptLens(logits, lens);
    assert Lengths(Prompts(vis, audioId, packedAudio)) == lens by { PromptSizes(vis, lens, audioId, packedAudio); }
    PackedDone(net, p, rt.cache.numBlocks, kv, ids, lens, Prompts(vis, audioId, packedAudio),
               PrefillRows(metadata.value, lens, items, Flatten(PositionRows(lens))), r.value);
  }

  lemma PromptSizes(vis: seq<seq<Token>>, lens: seq<nat>, audioId: Token, audio: seq<AudioRow>)
    requires Lengths(vis) == lens && AudioOffset(vis, audioId, |vis|) <= |audio|
    ensures Lengths(Prompts(vis, audioId, audio)) == lens
  {
    RowLengths(vis);
  }

  lemma RowOffsetTotal(widths: seq<nat>)
    ensures RowOffset(widths, |widths|) == Sum(widths)
  {
    assert widths[..|widths|] == widths;
  }

  lemma PackedDone(net: Network, p: Pool, numBlocks: nat, kv: seq<Kv>, ids: seq<nat>, lens: seq<nat>,
                   prompts: seq<seq<Item>>, built: seq<Row>, next: seq<Token>)
    requires PromptTables(p, numBlocks, ids, lens) && |kv| == numBlocks * p.blockSize
    requires |prompts| == |built| == |next| == |ids| && Lengths(prompts) == lens
    requires forall row :: row in built ==> WellShaped(row)
    requires forall r :: 0 <= r < |ids| ==>
               built[r] == Row(PadTable(Table(p, ids[r]), MaxOf(Lengths(Tables(p, ids)))), 0, prompts[r],
                               Positions(lens[r]), PackedRow(Table(p, ids[r]), lens[r], p.blockSize))
    requires var flat := Flatten(Logits(net, WriteRows(net, kv, p.blockSize, built, |built|), p.blockSize, built));
             forall r :: 0 <= r < |lens| ==>
               LastIndexes(lens, lens)[r] < |flat| && next[r] == flat[LastIndexes(lens, lens)[r]]
    ensures PrefillDone(net, p, kv, WriteRows(net, kv, p.blockSize, built, |built|), ids, prompts, next)
  {
    hide PackedRow, RowLogits, WriteRows, Flatten, PadTable;
    RowLengths(prompts);
    PackedArePromptRows(p, numBlocks, ids, lens, MaxOf(Lengths(Tables(p, ids))), prompts, built);
    PrefillEncodes(net, p, numBlocks, kv, ids, built, lens, lens, prompts, next);
  }

  /** The padded forward pass and its gather. */
  method PaddedForward(net: Network, rt: PagedCacheRuntime, audioId: Token, ghost ids: seq<nat>, tables: seq<seq<nat>>,
                       rows: seq<seq<Token>>, masks: seq<seq<nat>>,
                       ghost vis: seq<seq<Token>>, lens: seq<nat>, seqLen: nat, audio: seq<AudioRow>)
    returns (r: Outcome<seq<Token>>)
    requires PrefillReady(rt, ids, rows, masks, vis, lens, seqLen, audioId) && tables == Tables(rt.manager.View(), ids)
    modifies rt.cache
    ensures r.Ok? <==> AudioOffset(vis, audioId, |vis|) == |audio|
    ensures r.Ok? ==>
              PrefillDone(net, rt.manager.View(), old(rt.cache.kv), rt.cache.kv, ids, Prompts(vis, audioId, audio),
                          r.value)
    ensures r.Err? ==> rt.cache.kv == old(rt.cache.kv)
  {
    hide Merge, WriteRows, RowLogits, Split, PrefillDone, Prompts, Flatten, Cached, RowOffset;
    CountFlatten(rows, audioId);
    PaddedOffsets(rows, masks, vis, lens, seqLen, audioId, |rows|);
    if CountAudio(Flatten(rows), audioId) != |audio| {
      return Err("audio placeholder count mismatch");
    }
    r := ForwardPadded(net, rt, audioId, ids, tables, rows, masks, vis, lens, seqLen, audio);
  }

  method ForwardPadded(net: Network, rt: PagedCacheRuntime, audioId: Token, ghost ids: seq<nat>, tables: seq<seq<nat>>,
                       rows: seq<seq<Token>>, masks: seq<seq<nat>>,
                       ghost vis: seq<seq<Token>>, lens: seq<nat>, seqLen: nat, audio: seq<AudioRow>)
    returns (r: Outcome<seq<Token>>)
    requires PrefillReady(rt, ids, rows, masks, vis, lens, seqLen, audioId) && tables == Tables(rt.manager.View(), ids)
    requires AudioOffset(vis, audioId, |vis|) == AudioOffset(rows, audioId, |rows|) == |audio|
    modifies rt.cache
    ensures r.Ok?
    ensures PrefillDone(net, rt.manager.View(), old(rt.cache.kv), rt.cache.kv, ids, Prompts(vis, audioId, audio),
                        r.value)
  {
    hide Merge, WriteRows, RowLogits, Split, PrefillDone, Prompts, Flatten, Cached, RowOffset;
    ghost var p, kv := rt.manager.View(), rt.cache.kv;
    PaddedOkToo(p, rt.cache.numBlocks, ids, rows, masks, vis, lens, seqLen, audioId);
    PaddedRecovered(tables, rt.manager.blockSize, rows, masks, audioId, audio);
    var items := Merge(Flatten(rows), audioId, audio);
    var metadata := rt.cache.InputMetadataFromAttentionMasks(tables, masks);
    var widths := Lengths(rows);
    var logits := ForwardPrompts(net, rt, metadata.value, widths, items, Flatten(RopeRows(masks)));
    PaddedWidths(rows, masks, vis, lens, seqLen, audioId);
    r := GatherLastLogitsForPromptLens(logits, seqLen, widths, lens);
    PaddedDone(net, p, rt.cache.numBlocks, kv, ids, rows, masks, vis, lens, seqLen, audioId, audio,
               PrefillRows(metadata.value, widths, items, Flatten(RopeRows(masks))), r.value);
  }

  lemma PaddedWidths(rows: seq<seq<Token>>, masks: seq<seq<nat>>, vis: seq<seq<Token>>, lens: seq<nat>, seqLen: nat,
                     audioId: Token)
    requires PaddedBatch(rows, masks, vis, lens, seqLen, audioId)
    ensures forall r :: 0 <= r < |rows| ==> Lengths(rows)[r] == seqLen && lens[r] <= seqLen && |masks[r]| == |rows[r]|
    ensures forall r :: 0 <= r < |rows| ==> RightPadded(masks[r]) && MaskLen(masks[r]) == lens[r]
    ensures Lengths(masks) == Lengths(rows)
  {
    forall r | 0 <= r < |rows|
      ensures |masks[r]| == |rows[r]| == seqLen && lens[r] <= seqLen && RightPadded(masks[r])
      ensures MaskLen(masks[r]) == lens[r]
    {
      assert PaddedRow(rows[r], masks[r], vis[r], lens[r], seqLen, audioId);
    }
  }

  lemma PaddedDone(net: Network, p: Pool, numBlocks: nat, kv: seq<Kv>, ids: seq<nat>, rows: seq<seq<Token>>,
                   masks: seq<seq<nat>>, vis: seq<seq<Token>>, lens: seq<nat>,
                   seqLen: nat, audioId: Token, audio: seq<AudioRow>, built: seq<Row>, next: seq<Token>)
    requires PromptTables(p, numBlocks, ids, lens) && |kv| == numBlocks * p.blockSize && |rows| == |ids|
    requires PaddedBatch(rows, masks, vis, lens, seqLen, audioId)
    requires AudioOffset(vis, audioId, |vis|) == AudioOffset(rows, audioId, |rows|) == |audio| && |next| == |lens|
    requires (forall row :: row in built ==> WellShaped(row)) && (forall i :: 0 <= i < |lens| ==> lens[i] > 0)
    requires |built| == |ids| && forall r :: 0 <= r < |ids| ==>
               built[r] == Row(PadTable(Table(p, ids[r]), MaxOf(Lengths(Tables(p, ids)))), 0,
                               Prompts(rows, audioId, audio)[r], RopeRow(masks[r]),
                               MaskedRow(Table(p, ids[r]), masks[r], p.blockSize))
    requires var flat := Flatten(Logits(net, WriteRows(net, kv, p.blockSize, built, |built|), p.blockSize, built));
             forall r :: 0 <= r < |lens| ==>
               LastIndexes(Lengths(rows), lens)[r] < |flat| && next[r] == flat[LastIndexes(Lengths(rows), lens)[r]]
    ensures PrefillDone(net, p, kv, WriteRows(net, kv, p.blockSize, built, |built|), ids, Prompts(vis, audioId, audio),
                        next)
  {
    hide Merge, MaskedRow, RowLogits, WriteRows, RopeRow, Prompts, RightPadded, MaskLen, Flatten, PadTable;
    PaddedWidths(rows, masks, vis, lens, seqLen, audioId);
    var full, prompts := Prompts(rows, audioId, audio), Prompts(vis, audioId, audio);
    forall r | 0 <= r < |ids|
      ensures |full[r]| == seqLen && full[r][..lens[r]] == prompts[r]
    {
      PaddedPrompt(rows, masks, vis, lens, seqLen, audioId, audio, r);
    }
    PaddedArePromptRows(p, numBlocks, ids, masks, lens, MaxOf(Lengths(Tables(p, ids))), full, prompts, built);
    PrefillEncodes(net, p, numBlocks, kv, ids, built, Lengths(rows), lens, prompts, next);
  }

  /** The forward pass itself: store the entries of all rows, then choose after every position. */
  method ForwardPrompts(net: Network, rt: PagedCacheRuntime, m: Metadata, widths: seq<nat>, items: seq<Item>,
                        positions: seq<nat>)
    returns (logits: seq<Token>)
    requires rt.manager.blockSize > 0 && |widths| == |m.blockTables|
    requires Sum(widths) == |items| == |positions| == |m.slotMapping|
    modifies rt.cache
    ensures var rows := PrefillRows(m, widths, items, positions);
            && (forall row :: row in rows ==> WellShaped(row))
            && rt.cache.kv == WriteRows(net, old(rt.cache.kv), rt.manager.blockSize, rows, |rows|)
            && logits == Flatten(Logits(net, rt.cache.kv, rt.manager.blockSize, rows))
            && |logits| == Sum(widths)
  {
    var rows := PrefillRows(m, widths, items, positions);
    rt.cache.kv := WriteRows(net, rt.cache.kv, rt.manager.blockSize, rows, |rows|);
    logits := Flatten(Logits(net, rt.cache.kv, rt.manager.blockSize, rows));
    FlattenLength(Logits(net, rt.cache.kv, rt.manager.blockSize, rows));
    assert Lengths(Logits(net, rt.cache.kv, rt.manager.blockSize, rows)) == widths;
  }

  // ----- normalisation

  method AttentionMaskIsRightPadded(mask: seq<nat>) returns (ok: bool)
    ensures ok <==> RightPadded(mask)
  {
    var seenPad := false;
    for i := 0 to |mask|
      invariant seenPad <==> exists p :: 0 <= p < i && mask[p] == 0
      invariant forall p, q :: 0 <= p < q < i && mask[q] != 0 ==> mask[p] != 0
    {
      if mask[i] == 0 {
        seenPad := true;
      } else if seenPad {
        return false;
      }
    }
    ok := true;
  }

  lemma OnesThenZeroes(mask: seq<nat>, w: nat)
    requires w <= |mask| && forall p :: 0 <= p < |mask| ==> mask[p] == if p < w then 1 else 0
    ensures RightPadded(mask) && MaskLen(mask) == w
  {
    RightPaddedMask(mask);
    if w > 0 {
      assert mask[w - 1] == 1;
    }
    if w < |mask| {
      assert mask[w] == 0;
    }
  }

  /** The token used for padding: the first masked-out one, or the first one of an unpadded row. */
  method FindPadId(ids: seq<Token>, mask: seq<nat>) returns (padId: Token)
    requires |ids| == |mask| > 0
    ensures (exists q :: 0 <= q < |ids| && mask[q] == 0 && padId == ids[q]) || MaskLen(mask) == |mask|
  {
    for i := 0 to |ids|
      invariant forall q :: 0 <= q < i ==> mask[q] != 0
    {
      if mask[i] == 0 {
        return ids[i];
      }
    }
    MaskLenFull(mask);
    padId := ids[0];
  }

  /** Move the real tokens of a row to its front; the rest repeats a masked-out token. */
  method NormalizeRow(ids: seq<Token>, mask: seq<nat>) returns (rowIds: seq<Token>, rowMask: seq<nat>)
    requires |ids| == |mask| > 0
    ensures |rowIds| == |rowMask| == |ids| && RightPadded(rowMask)
    ensures MaskLen(rowMask) == MaskLen(mask) && rowIds[..MaskLen(mask)] == Visible(ids, mask)
    ensures MaskLen(mask) < |ids| ==>
              exists q ::
                0 <= q < |ids| && mask[q] == 0 && forall p :: MaskLen(mask) <= p < |ids| ==> rowIds[p] == ids[q]
  {
    var padId := FindPadId(ids, mask);
    rowIds := seq(|ids|, _ => padId);
    rowMask := seq(|ids|, _ => 0);
    var writeIdx := 0;
    for i := 0 to |ids|
      invariant |rowIds| == |rowMask| == |ids|
      invariant writeIdx == MaskLen(mask[..i]) <= i
      invariant rowIds[..writeIdx] == Visible(ids[..i], mask[..i])
      invariant forall p :: writeIdx <= p < |ids| ==> rowIds[p] == padId
      invariant forall p :: 0 <= p < |ids| ==> rowMask[p] == if p < writeIdx then 1 else 0
    {
      VisibleStep(ids, mask, i);
      if mask[i] != 0 {
        rowIds := rowIds[writeIdx := ids[i]];
        rowMask := rowMask[writeIdx := 1];
        writeIdx := writeIdx + 1;
      }
    }
    assert mask[..|ids|] == mask && ids[..|ids|] == ids;
    OnesThenZeroes(rowMask, writeIdx);
  }

  lemma VisibleStep(ids: seq<Token>, mask: seq<nat>, i: nat)
    requires i < |ids| == |mask|
    ensures MaskLen(mask[..i + 1]) == MaskLen(mask[..i]) + if mask[i] != 0 then 1 else 0
    ensures Visible(ids[..i + 1], mask[..i + 1]) == Visible(ids[..i], mask[..i]) + if mask[i] != 0 then [ids[i]] else []
  {
    assert mask[..i + 1][..i] == mask[..i] && ids[..i + 1][..i] == ids[..i];
  }

  /** Rows as the rest of the prefill wants them: right-padded, with their prompt lengths. */
  method NormalizeBatch(idRows: seq<seq<Token>>, masks: seq<seq<nat>>, ghost seqLen: nat, ghost audioId: Token)
    returns (r: Outcome<(seq<seq<Token>>, seq<seq<nat>>, seq<nat>)>)
    requires seqLen > 0 && SameLength(idRows, masks, seqLen)
    requires forall i :: 0 <= i < |idRows| ==> CleanPadding(idRows[i], masks[i], audioId)
    ensures r.Ok? ==>
              r.value.2 == MaskLens(masks) &&
                PaddedBatch(r.value.0, r.value.1, VisibleRows(idRows, masks), r.value.2, seqLen, audioId)
    ensures r.Err? ==> exists i :: 0 <= i < |masks| && MaskLen(masks[i]) == 0
  {
    var allRightPadded := true;
    for i := 0 to |masks|
      invariant allRightPadded ==> forall k :: 0 <= k < i ==> RightPadded(masks[k])
    {
      var ok := AttentionMaskIsRightPadded(masks[i]);
      allRightPadded := allRightPadded && ok;
    }
    if allRightPadded {
      forall i | 0 <= i < |idRows|
        ensures PaddedRow(idRows[i], masks[i], Visible(idRows[i], masks[i]), MaskLen(masks[i]), seqLen, audioId)
      {
        RightPaddedRow(idRows[i], masks[i], audioId);
      }
      return Ok((idRows, masks, MaskLens(masks)));
    }
    var rows: seq<seq<Token>> := [];
    var rowMasks: seq<seq<nat>> := [];
    for i := 0 to |idRows|
      invariant |rows| == |rowMasks| == i
      invariant forall k ::
                0 <= k < i ==>
                  PaddedRow(rows[k], rowMasks[k], Visible(idRows[k], masks[k]), MaskLen(masks[k]), seqLen, audioId)
    {
      if MaskLen(masks[i]) == 0 {
        return Err("invalid prompt length");
      }
      var rowIds, rowMask := NormalizeRow(idRows[i], masks[i]);
      CountAudioNone(rowIds[MaskLen(masks[i])..], audioId);
      rows := rows + [rowIds];
      rowMasks := rowMasks + [rowMask];
    }
    r := Ok((rows, rowMasks, MaskLens(masks)));
  }

  method AllocatePrompts(rt: PagedCacheRuntime, ids: seq<nat>, lens: seq<nat>) returns (r: Outcome<()>)
    requires rt.Valid() && |ids| == |lens|
    modifies rt.manager
    ensures rt.Valid()
    ensures r.Ok? <==> PromptsFit(old(rt.manager.View()), ids, lens, |ids|)
    ensures r.Ok? ==> rt.manager.View() == GrowPrompts(old(rt.manager.View()), ids, lens, |ids|)
    ensures forall id: nat :: id !in ids ==> Table(rt.manager.View(), id) == Table(old(rt.manager.View()), id)
  {
    ghost var p := rt.manager.View();
    assert p.blockSize > 0;
    hide Fits, Grow, BlockPool.Valid;
    for i := 0 to |ids|
      invariant rt.manager.View() == GrowPrompts(p, ids, lens, i)
      invariant PromptsFit(p, ids, lens, i)
    {
      GrowPromptsValid(p, ids, lens, i + 1, rt.cache.numBlocks);
      var ok := rt.manager.AllocateSlots(ids[i], lens[i]);
      if ok.Err? {
        assert !Fits(GrowPrompts(p, ids, lens, i), ids[i], lens[i]);
        return Err(ok.error);
      }
    }
    GrowPromptsValid(p, ids, lens, |ids|, rt.cache.numBlocks);
    assert ids[..|ids|] == ids;
    r := Ok(());
  }

  /** The state of a batch between steps; rows share one decode step. */
  class PagedBatchState {
    const promptLens: seq<nat>
    const requestIds: seq<nat>
    const maxNew: nat
    const eos: seq<Token>
    var blockTables: seq<seq<nat>>
    var nextIds: seq<Token>
    var generated: seq<seq<Token>>
    var finished: seq<bool>
    var decodeStep: nat

    constructor (promptLens: seq<nat>, requestIds: seq<nat>, blockTables: seq<seq<nat>>, nextIds: seq<Token>,
                 maxNew: nat, eos: seq<Token>)
      ensures this.promptLens == promptLens && this.requestIds == requestIds && this.maxNew == maxNew && this.eos == eos
      ensures this.blockTables == blockTables && this.nextIds == nextIds && decodeStep == 0
      ensures generated == seq(|nextIds|, _ => [])
      ensures finished == Ended(nextIds, eos)
    {
      this.promptLens, this.requestIds, this.maxNew, this.eos := promptLens, requestIds, maxNew, eos;
      this.blockTables, this.nextIds, this.decodeStep := blockTables, nextIds, 0;
      this.generated := seq(|nextIds|, _ => []);
      this.finished := Ended(nextIds, eos);
    }

    ghost predicate Valid()
      reads this
    {
      |promptLens| == |requestIds| == |blockTables| == |nextIds| == |generated| == |finished|
    }

    /** The rows as decode slots; a finished row keeps the step it ended at. */
    function Slot(i: nat): DecodeSlot
      requires Valid() && i < |requestIds|
      reads this
    {
      DecodeSlot(requestIds[i], promptLens[i], nextIds[i], generated[i], finished[i],
                 if finished[i] then |generated[i]| else decodeStep)
    }

    function Slots(): (slots: seq<DecodeSlot>)
      requires Valid()
      reads this
      ensures |slots| == |requestIds|
    {
      seq(|requestIds|, i requires 0 <= i < |requestIds| && Valid() reads this => Slot(i))
    }
  }

  function Ended(nextIds: seq<Token>, eos: seq<Token>): (ended: seq<bool>)
    ensures |ended| == |nextIds|
  {
    seq(|nextIds|, i requires 0 <= i < |nextIds| => nextIds[i] in eos)
  }

  /** Consecutive request ids from `base`. */
  function RequestIds(base: nat, n: nat): (ids: seq<nat>)
    ensures |ids| == n
  {
    seq(n, i requires 0 <= i => base + i)
  }

  lemma RequestIdsRange(base: nat, n: nat)
    ensures NoDup(RequestIds(base, n))
    ensures forall id: nat :: id in RequestIds(base, n) <==> base <= id < base + n
  {
    forall id: nat | base <= id < base + n
      ensures id in RequestIds(base, n)
    {
      assert RequestIds(base, n)[id - base] == id;
    }
  }

  ghost predicate PrefillOk(p: Pool, idRows: seq<seq<Token>>, masks: seq<seq<nat>>, audioId: Token,
                            audio: seq<AudioRow>, base: nat, eos: seq<Token>, packed: bool)
    requires p.blockSize > 0
  {
    && idRows != [] && eos != [] && |idRows[0]| > 0
    && SameLength(idRows, masks, |idRows[0]|)
    && (forall i :: 0 <= i < |masks| ==> MaskLen(masks[i]) > 0)
    && PromptsFit(p, RequestIds(base, |idRows|), MaskLens(masks), |idRows|)
    && var placeholders := AudioOffset(VisibleRows(idRows, masks), audioId, |idRows|);
    if packed then placeholders <= |audio| else placeholders == |audio|
  }

  /** A batch right after its prefill: every row cached and on the greedy path of its own prompt. */
  ghost predicate Prefilled(net: Network, numBlocks: nat, c: Cache, c': Cache, ids: seq<nat>, lens: seq<nat>,
                            prompts: seq<seq<Item>>, next: seq<Token>, eos: seq<Token>)
    requires 0 < c.pool.blockSize && |ids| == |lens| == |next|
  {
    && ValidCache(c', numBlocks)
    && c'.pool == TrimFinished(GrowPrompts(c.pool, ids, lens, |ids|), ids, lens, next, eos, |ids|)
    && |prompts| == |ids|
    && (forall i :: 0 <= i < |ids| ==> |prompts[i]| == lens[i] && next[i] == NextToken(net, prompts[i]))
    && (forall i :: 0 <= i < |ids| && next[i] !in eos ==> Cached(net, c'.pool, c'.kv, ids[i], prompts[i]))
    && (forall id: nat, items :: id !in ids && Cached(net, c.pool, c.kv, id, items)
          ==> Table(c'.pool, id) == Table(c.pool, id) && Cached(net, c'.pool, c'.kv, id, items))
  }

  /** What is cached behind an untouched table survives both the growth and the trimming. */
  lemma OthersAfterTrim(net: Network, numBlocks: nat, p: Pool, kv: seq<Kv>, kv': seq<Kv>, ids: seq<nat>, lens: seq<nat>,
                        prompts: seq<seq<Item>>, next: seq<Token>, eos: seq<Token>,
                        id: nat, items: seq<Item>)
    requires Valid(p, numBlocks) && |ids| == |lens| == |next| && NoDup(ids)
    requires PrefillDone(net, GrowPrompts(p, ids, lens, |ids|), kv, kv', ids, prompts, next)
    requires id !in ids && Cached(net, p, kv, id, items)
    ensures var q := TrimFinished(GrowPrompts(p, ids, lens, |ids|), ids, lens, next, eos, |ids|);
            Table(q, id) == Table(p, id) && Cached(net, q, kv', id, items)
  {
    var q := GrowPrompts(p, ids, lens, |ids|);
    GrowPromptsValid(p, ids, lens, |ids|, numBlocks);
    TrimFinishedTables(q, ids, lens, next, eos, |ids|, numBlocks);
    assert ids[..|ids|] == ids;
    CachedFrame(net, p, q, kv, id, items);
    CachedFrame(net, q, TrimFinished(q, ids, lens, next, eos, |ids|), kv', id, items);
  }

  /** The cached and chosen part of a prefill that is done. */
  lemma DoneAt(net: Network, p: Pool, kv: seq<Kv>, kv': seq<Kv>, ids: seq<nat>, prompts: seq<seq<Item>>,
               next: seq<Token>, i: nat)
    requires p.blockSize > 0 && PrefillDone(net, p, kv, kv', ids, prompts, next) && i < |ids|
    ensures |next| == |prompts| == |ids| && |kv'| == |kv|
    ensures Cached(net, p, kv', ids[i], prompts[i]) && next[i] == NextToken(net, prompts[i])
  {
  }

  lemma PrefilledAfterTrim(net: Network, numBlocks: nat, c: Cache, q: Pool, kv': seq<Kv>, ids: seq<nat>, lens: seq<nat>,
                           prompts: seq<seq<Item>>, next: seq<Token>, eos: seq<Token>)
    requires ValidCache(c, numBlocks) && c.pool.blockSize > 0 && |ids| == |lens| == |next| == |prompts| && NoDup(ids)
    requires |kv'| == |c.kv|
    requires q == GrowPrompts(c.pool, ids, lens, |ids|)
    requires PrefillDone(net, q, c.kv, kv', ids, prompts, next)
    requires forall i :: 0 <= i < |ids| ==> |prompts[i]| == lens[i]
    ensures Prefilled(net, numBlocks, c, Cache(TrimFinished(q, ids, lens, next, eos, |ids|), kv'), ids, lens, prompts,
                      next, eos)
  {
    hide TrimFinished, GrowPrompts, BlockPool.Valid, Cached, PrefillDone;
    var n := |ids|;
    GrowPromptsValid(c.pool, ids, lens, n, numBlocks);
    TrimFinishedTables(q, ids, lens, next, eos, n, numBlocks);
    var p := TrimFinished(q, ids, lens, next, eos, n);
    forall i | 0 <= i < n
      ensures next[i] == NextToken(net, prompts[i])
      ensures next[i] !in eos ==> Cached(net, p, kv', ids[i], prompts[i])
    {
      DoneAt(net, q, c.kv, kv', ids, prompts, next, i);
      if next[i] !in eos {
        CachedFrame(net, q, p, kv', ids[i], prompts[i]);
      }
    }
    forall id: nat, items | id !in ids && Cached(net, c.pool, c.kv, id, items)
      ensures Table(p, id) == Table(c.pool, id) && Cached(net, p, kv', id, items)
    {
      OthersAfterTrim(net, numBlocks, c.pool, c.kv, kv', ids, lens, prompts, next, eos, id, items);
    }
  }

  /** Finished prompts give back their spare blocks. */
  method TrimEnded(rt: PagedCacheRuntime, ids: seq<nat>, lens: seq<nat>, next: seq<Token>, eos: seq<Token>)
    requires rt.manager.blockSize > 0 && |ids| == |lens| == |next|
    modifies rt.manager
    ensures rt.manager.View() == TrimFinished(old(rt.manager.View()), ids, lens, next, eos, |ids|)
  {
    for i := 0 to |ids|
      invariant rt.manager.View() == TrimFinished(old(rt.manager.View()), ids, lens, next, eos, i)
    {
      if next[i] in eos {
        rt.manager.TrimRequestToNumTokens(ids[i], lens[i]);
      }
    }
  }

  ghost function Own(audio: seq<AudioRow>, vis: seq<seq<Token>>, audioId: Token): (own: seq<AudioRow>)
    requires AudioOffset(vis, audioId, |vis|) <= |audio|
  {
    audio[..AudioOffset(vis, audioId, |vis|)]
  }

  /** The shape checks before anything is touched. */
  method CheckBatch(idRows: seq<seq<Token>>, masks: seq<seq<nat>>, eos: seq<Token>) returns (r: Outcome<nat>)
    requires |masks| == |idRows|
    ensures r.Ok? <==> idRows != [] && eos != [] && |idRows[0]| > 0 && SameLength(idRows, masks, |idRows[0]|)
    ensures r.Ok? ==> r.value == |idRows[0]|
  {
    if idRows == [] {
      return Err("paged batch prefill requires at least one row");
    }
    if eos == [] {
      return Err("eos_token_ids is empty");
    }
    var seqLen := |idRows[0]|;
    if seqLen == 0 {
      return Err("input_ids rows are empty");
    }
    for i := 0 to |idRows|
      invariant forall k :: 0 <= k < i ==> |idRows[k]| == |masks[k]| == seqLen
    {
      if |idRows[i]| != seqLen || |masks[i]| != seqLen {
        return Err("paged batch row length mismatch");
      }
    }
    r := Ok(seqLen);
  }

  /** Allocate, run the forward pass in the chosen layout, trim. A zero-length prompt always ends in
      an error here: it has no block table, or its last position does not exist. */
  method PrefillRowsInPlace(net: Network, rt: PagedCacheRuntime, audioId: Token, rows: seq<seq<Token>>,
                            masks: seq<seq<nat>>, lens: seq<nat>, seqLen: nat, ghost vis: seq<seq<Token>>,
                            audio: seq<AudioRow>, ids: seq<nat>, eos: seq<Token>, packed: bool)
    returns (r: Outcome<(seq<seq<nat>>, seq<Token>)>)
    requires rt.Valid() && rows != [] && |ids| == |rows| && NoDup(ids)
    requires PaddedBatch(rows, masks, vis, lens, seqLen, audioId)
    modifies rt.manager, rt.cache
    ensures rt.Valid()
    ensures r.Ok? <==> && (forall i :: 0 <= i < |lens| ==> lens[i] > 0)
                       && PromptsFit(old(rt.manager.View()), ids, lens, |ids|)
                       && if packed then AudioOffset(vis, audioId, |vis|) <= |audio|
                         else AudioOffset(vis, audioId, |vis|) == |audio|
    ensures r.Ok? ==> |r.value.0| == |r.value.1| == |ids|
                      && Prefilled(net, rt.cache.numBlocks, old(rt.View()), rt.View(), ids, lens,
                                   Prompts(vis, audioId, Own(audio, vis, audioId)), r.value.1, eos)
    ensures forall id: nat :: id !in ids ==> Table(rt.manager.View(), id) == Table(old(rt.manager.View()), id)
  {
    hide Merge, WriteRows, PrefillDone, Prompts, Cached, Fits, Prefilled, PaddedRow, AudioOffset;
    ghost var c := rt.View();
    var grown := AllocatePrompts(rt, ids, lens);
    if grown.Err? {
      return Err(grown.error);
    }
    if exists i :: 0 <= i < |lens| && lens[i] == 0 {
      return Err("prompt length must be > 0");
    }
    ghost var q := rt.manager.View();
    AllocatedTables(c.pool, rt.cache.numBlocks, ids, lens);
    var tables := rt.manager.BlockTablesFor(ids);
    var next;
    if packed {
      next := PackedForward(net, rt, audioId, ids, tables.value, rows, masks, vis, lens, seqLen, audio);
    } else {
      next := PaddedForward(net, rt, audioId, ids, tables.value, rows, masks, vis, lens, seqLen, audio);
    }
    if next.Err? {
      return Err(next.error);
    }
    OwnAll(audio, vis, audioId);
    PromptLengths(rows, masks, vis, lens, seqLen, audioId, Own(audio, vis, audioId));
    ghost var kv' := rt.cache.kv;
    DoneLengths(net, q, c.kv, kv', ids, Prompts(vis, audioId, Own(audio, vis, audioId)), next.value);
    PrefilledAfterTrim(net, rt.cache.numBlocks, c, q, kv', ids, lens, Prompts(vis, audioId, Own(audio, vis, audioId)),
                       next.value, eos);
    TrimFinishedTables(q, ids, lens, next.value, eos, |ids|, rt.cache.numBlocks);
    TrimEnded(rt, ids, lens, next.value, eos);
    r := Ok((tables.value, next.value));
  }

  lemma DoneLengths(net: Network, p: Pool, kv: seq<Kv>, kv': seq<Kv>, ids: seq<nat>, prompts: seq<seq<Item>>,
                    next: seq<Token>)
    requires p.blockSize > 0 && PrefillDone(net, p, kv, kv', ids, prompts, next)
    ensures |next| == |ids| && |kv'| == |kv|
  {
  }

  lemma OwnAll(audio: seq<AudioRow>, vis: seq<seq<Token>>, audioId: Token)
    requires AudioOffset(vis, audioId, |vis|) <= |audio|
    ensures AudioOffset(vis, audioId, |vis|) == |audio| ==> Own(audio, vis, audioId) == audio
  {
  }

  lemma PromptLengths(rows: seq<seq<Token>>, masks: seq<seq<nat>>, vis: seq<seq<Token>>, lens: seq<nat>, seqLen: nat,
                      audioId: Token, audio: seq<AudioRow>)
    requires PaddedBatch(rows, masks, vis, lens, seqLen, audioId) && AudioOffset(vis, audioId, |vis|) <= |audio|
    ensures forall i :: 0 <= i < |lens| ==> |Prompts(vis, audioId, audio)[i]| == lens[i]
  {
    forall i | 0 <= i < |lens|
      ensures |vis[i]| == lens[i]
    {
      assert PaddedRow(rows[i], masks[i], vis[i], lens[i], seqLen, audioId);
    }
  }

  lemma AllocatedTables(p: Pool, numBlocks: nat, ids: seq<nat>, lens: seq<nat>)
    requires Valid(p, numBlocks) && NoDup(ids) && |ids| == |lens| > 0 && PromptsFit(p, ids, lens, |ids|)
    requires forall i :: 0 <= i < |lens| ==> lens[i] > 0
    ensures PromptTables(GrowPrompts(p, ids, lens, |ids|), numBlocks, ids, lens)
    ensures forall id :: id in ids ==> id in GrowPrompts(p, ids, lens, |ids|).tables
  {
    var q := GrowPrompts(p, ids, lens, |ids|);
    GrowPromptsValid(p, ids, lens, |ids|, numBlocks);
    forall i | 0 <= i < |ids|
      ensures Covers(Table(q, ids[i]), p.blockSize, lens[i]) && ids[i] in q.tables
    {
      GrowPromptsCovers(p, ids, lens, |ids|, i);
    }
  }

  ghost predicate CleanBatch(idRows: seq<seq<Token>>, masks: seq<seq<nat>>, audioId: Token) {
    && |masks| == |idRows|
    && forall i :: 0 <= i < |idRows| && |idRows[i]| == |masks[i]| ==> CleanPadding(idRows[i], masks[i], audioId)
  }

  /** The prompts of a well-shaped batch. */
  ghost function BatchPrompts(idRows: seq<seq<Token>>, masks: seq<seq<nat>>, audioId: Token,
                              audio: seq<AudioRow>): (prompts: seq<seq<Item>>)
    requires |masks| == |idRows| && forall i :: 0 <= i < |idRows| ==> |idRows[i]| == |masks[i]|
    requires AudioOffset(VisibleRows(idRows, masks), audioId, |idRows|) <= |audio|
    ensures |prompts| == |idRows|
  {
    var vis := VisibleRows(idRows, masks);
    Prompts(vis, audioId, Own(audio, vis, audioId))
  }

  /** Prefill a batch: afterwards every row is cached and its first token chosen as if it were alone.
      Padding must not contain audio placeholders. */
  method Prefill(net: Network, rt: PagedCacheRuntime, audioId: Token, idRows: seq<seq<Token>>, masks: seq<seq<nat>>,
                 audio: seq<AudioRow>,
                 requestIdBase: nat, maxNew: nat, eos: seq<Token>, packed: bool) returns (r: Outcome<PagedBatchState>)
    requires rt.Valid() && CleanBatch(idRows, masks, audioId)
    modifies rt.manager, rt.cache
    ensures rt.Valid()
    ensures r.Ok? <==> PrefillOk(old(rt.manager.View()), idRows, masks, audioId, audio, requestIdBase, eos, packed)
    ensures r.Ok? ==>
              && fresh(r.value) && r.value.Valid()
              && r.value.requestIds == RequestIds(requestIdBase, |idRows|)
              && r.value.promptLens == MaskLens(masks)
              && r.value.maxNew == maxNew && r.value.eos == eos && r.value.decodeStep == 0
              && r.value.generated == seq(|idRows|, _ => [])
              && r.value.finished == Ended(r.value.nextIds, eos)
              && Prefilled(net, rt.cache.numBlocks, old(rt.View()), rt.View(), r.value.requestIds, r.value.promptLens,
                           BatchPrompts(idRows, masks, audioId, audio), r.value.nextIds, eos)
    ensures forall id: nat ::
              id !in RequestIds(requestIdBase, |idRows|) ==>
                Table(rt.manager.View(), id) == Table(old(rt.manager.View()), id)
  {
    hide Prefilled, PromptsFit, PaddedBatch, CleanPadding, AudioOffset;
    var shape := CheckBatch(idRows, masks, eos);
    if shape.Err? {
      return Err(shape.error);
    }
    var batch := NormalizeBatch(idRows, masks, shape.value, audioId);
    if batch.Err? {
      return Err(batch.error);
    }
    var ids := RequestIds(requestIdBase, |idRows|);
    RequestIdsRange(requestIdBase, |idRows|);
    PositiveLens(masks);
    BatchSizes(batch.value.0, batch.value.1, VisibleRows(idRows, masks), batch.value.2, shape.value, audioId);
    var done := PrefillRowsInPlace(net, rt, audioId, batch.value.0, batch.value.1, batch.value.2, shape.value,
                                   VisibleRows(idRows, masks), audio, ids, eos, packed);
    if done.Err? {
      return Err(done.error);
    }
    var state := new PagedBatchState(batch.value.2, ids, done.value.0, done.value.1, maxNew, eos);
    r := Ok(state);
  }

  lemma PositiveLens(masks: seq<seq<nat>>)
    ensures (forall i :: 0 <= i < |masks| ==> MaskLens(masks)[i] > 0) <==>
              (forall i :: 0 <= i < |masks| ==> MaskLen(masks[i]) > 0)
  {
    assert forall i :: 0 <= i < |masks| ==> MaskLens(masks)[i] == MaskLen(masks[i]);
  }

  lemma BatchSizes(rows: seq<seq<Token>>, masks: seq<seq<nat>>, vis: seq<seq<Token>>, lens: seq<nat>, seqLen: nat,
                   audioId: Token)
    requires PaddedBatch(rows, masks, vis, lens, seqLen, audioId)
    ensures |rows| == |masks| == |vis| == |lens|
  {
  }
}
