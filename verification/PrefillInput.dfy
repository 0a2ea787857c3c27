/** Prompt batches: which tokens and audio rows of a padded batch are real, how the two prefill
    layouts arrange them, and why either layout caches each prompt as if it were alone. */
module PrefillInput {
  import opened Prelude
  import opened Decoding
  import opened BlockPool
  import opened SlotMapping
  import opened PagedKvCache
  import opened PagedCacheRuntime
  import opened DecodeSoundness

  /** The tokens the mask lets through, in order. */
  function Visible(ids: seq<Token>, mask: seq<nat>): (v: seq<Token>)
    requires |ids| == |mask|
    ensures |v| == MaskLen(mask)
    decreases |ids|
  {
    if ids == [] then [] else
      var k := |ids| - 1;
      Visible(ids[..k], mask[..k]) + (if mask[k] != 0 then [ids[k]] else [])
  }

  lemma {:induction false} VisiblePrefix(ids: seq<Token>, mask: seq<nat>)
    requires |ids| == |mask| && RightPadded(mask)
    ensures Visible(ids, mask) == ids[..MaskLen(mask)]
    decreases |ids|
  {
    RightPaddedMask(mask);
    if ids != [] {
      var k := |ids| - 1;
      VisiblePrefix(ids[..k], mask[..k]);
    }
  }

  /** Placeholders in the rows before row `r`. */
  function AudioOffset(rows: seq<seq<Token>>, audioId: Token, r: nat): nat
    requires r <= |rows|
  {
    if r == 0 then 0 else AudioOffset(rows, audioId, r - 1) + CountAudio(rows[r - 1], audioId)
  }

  lemma {:induction false} AudioOffsetMonotone(rows: seq<seq<Token>>, audioId: Token, r: nat, s: nat)
    requires r <= s <= |rows|
    ensures AudioOffset(rows, audioId, r) <= AudioOffset(rows, audioId, s)
    decreases s
  {
    if r < s {
      AudioOffsetMonotone(rows, audioId, r, s - 1);
    }
  }

  /** The audio rows that belong to row `r`. */
  function AudioOf(rows: seq<seq<Token>>, audioId: Token, audio: seq<AudioRow>, r: nat): (own: seq<AudioRow>)
    requires r < |rows| && AudioOffset(rows, audioId, |rows|) <= |audio|
    ensures |own| == CountAudio(rows[r], audioId)
  {
    AudioOffsetMonotone(rows, audioId, r + 1, |rows|);
    audio[AudioOffset(rows, audioId, r)..AudioOffset(rows, audioId, r + 1)]
  }

  /** What each row means on its own: its tokens with its own audio rows filled in. */
  function Prompts(rows: seq<seq<Token>>, audioId: Token, audio: seq<AudioRow>): (prompts: seq<seq<Item>>)
    requires AudioOffset(rows, audioId, |rows|) <= |audio|
    ensures |prompts| == |rows|
  {
    seq(|rows|, r requires 0 <= r < |rows| => Merge(rows[r], audioId, AudioOf(rows, audioId, audio, r)))
  }

  lemma {:induction false} AudioOffsetPrefix(rows: seq<seq<Token>>, audioId: Token, k: nat, r: nat)
    requires r <= k <= |rows|
    ensures AudioOffset(rows[..k], audioId, r) == AudioOffset(rows, audioId, r)
  {
    if r > 0 {
      AudioOffsetPrefix(rows, audioId, k, r - 1);
    }
  }

  lemma AudioOfPrefix(rows: seq<seq<Token>>, audioId: Token, audio: seq<AudioRow>, k: nat, r: nat)
    requires r < k <= |rows| && AudioOffset(rows, audioId, |rows|) <= |audio|
    ensures AudioOffset(rows[..k], audioId, k) == AudioOffset(rows, audioId, k) <= |audio|
    ensures AudioOf(rows[..k], audioId, audio[..AudioOffset(rows, audioId, k)], r) == AudioOf(rows, audioId, audio, r)
  {
    hide CountAudio;
    AudioOffsetPrefix(rows, audioId, k, k);
    AudioOffsetMonotone(rows, audioId, k, |rows|);
    AudioOffsetPrefix(rows, audioId, k, r);
    AudioOffsetPrefix(rows, audioId, k, r + 1);
    AudioOffsetMonotone(rows, audioId, r + 1, k);
  }

  lemma PromptsPrefix(rows: seq<seq<Token>>, audioId: Token, audio: seq<AudioRow>, k: nat)
    requires k <= |rows| && AudioOffset(rows, audioId, |rows|) <= |audio|
    ensures AudioOffset(rows[..k], audioId, k) == AudioOffset(rows, audioId, k) <= |audio|
    ensures Prompts(rows[..k], audioId, audio[..AudioOffset(rows, audioId, k)]) == Prompts(rows, audioId, audio)[..k]
  {
    hide Merge, CountAudio, AudioOf, AudioOffset;
    var cut := AudioOffset(rows, audioId, k);
    AudioOffsetPrefix(rows, audioId, k, k);
    AudioOffsetMonotone(rows, audioId, k, |rows|);
    forall r | 0 <= r < k
      ensures AudioOf(rows[..k], audioId, audio[..cut], r) == AudioOf(rows, audioId, audio, r)
    {
      AudioOfPrefix(rows, audioId, audio, k, r);
    }
  }

  lemma {:induction false} CountFlatten(rows: seq<seq<Token>>, audioId: Token)
    ensures CountAudio(Flatten(rows), audioId) == AudioOffset(rows, audioId, |rows|)
  {
    if rows != [] {
      var k := |rows| - 1;
      CountFlatten(rows[..k], audioId);
      AudioOffsetPrefix(rows, audioId, k, k);
      CountAudioConcat(Flatten(rows[..k]), rows[k], audioId);
    }
  }

  /** Filling the placeholders of the whole batch in one go fills each row with its own audio. */
  lemma {:induction false} MergeFlatten(rows: seq<seq<Token>>, audioId: Token, audio: seq<AudioRow>)
    requires |audio| == AudioOffset(rows, audioId, |rows|) == CountAudio(Flatten(rows), audioId)
    ensures Merge(Flatten(rows), audioId, audio) == Flatten(Prompts(rows, audioId, audio))
  {
    if rows != [] {
      var k := |rows| - 1;
      PromptsPrefix(rows, audioId, audio, k);
      CountFlatten(rows[..k], audioId);
      MergeFlatten(rows[..k], audioId, audio[..AudioOffset(rows, audioId, k)]);
      hide Merge, CountAudio, Prompts, AudioOffset, Flatten;
      MergeLastRow(rows, audioId, audio);
    } else {
      assert Merge([], audioId, audio) == [];
    }
  }

  lemma MergeLastRow(rows: seq<seq<Token>>, audioId: Token, audio: seq<AudioRow>)
    requires rows != [] && |audio| == AudioOffset(rows, audioId, |rows|) == CountAudio(Flatten(rows), audioId)
    requires var k := |rows| - 1;
             && AudioOffset(rows, audioId, k) == CountAudio(Flatten(rows[..k]), audioId) <= |audio|
             && Merge(Flatten(rows[..k]), audioId, audio[..AudioOffset(rows, audioId, k)]) ==
               Flatten(Prompts(rows, audioId, audio)[..k])
    ensures Merge(Flatten(rows), audioId, audio) == Flatten(Prompts(rows, audioId, audio))
  {
    hide Merge, CountAudio, Prompts, AudioOffset, AudioOf, Flatten;
    var k := |rows| - 1;
    LastAudio(rows, audioId, audio);
    LastPrompt(rows, audioId, audio);
    var cut := AudioOffset(rows, audioId, k);
    FlattenPrefix(rows, k);
    assert rows[..k + 1] == rows;
    assert audio == audio[..cut] + audio[cut..];
    MergeConcat(Flatten(rows[..k]), rows[k], audioId, audio[..cut], audio[cut..]);
  }

  lemma LastAudio(rows: seq<seq<Token>>, audioId: Token, audio: seq<AudioRow>)
    requires rows != [] && |audio| == AudioOffset(rows, audioId, |rows|)
    ensures AudioOffset(rows, audioId, |rows| - 1) <= |audio|
    ensures AudioOf(rows, audioId, audio, |rows| - 1) == audio[AudioOffset(rows, audioId, |rows| - 1)..]
  {
  }

  lemma LastPrompt(rows: seq<seq<Token>>, audioId: Token, audio: seq<AudioRow>)
    requires rows != [] && AudioOffset(rows, audioId, |rows|) <= |audio|
    ensures var k := |rows| - 1;
            Flatten(Prompts(rows, audioId, audio)) ==
              Flatten(Prompts(rows, audioId, audio)[..k]) + Merge(rows[k], audioId, AudioOf(rows, audioId, audio, k))
  {
  }

  // ----- the rows of a prefill forward pass

  function Positions(n: nat): (ps: seq<nat>)
    ensures |ps| == n
  {
    seq(n, i requires 0 <= i => i)
  }

  /** Position ids from the mask: the number of earlier real tokens; padding gets 1. */
  function RopeRow(mask: seq<nat>): (ps: seq<nat>)
    ensures |ps| == |mask|
  {
    seq(|mask|, p requires 0 <= p < |mask| =>
      if mask[p] != 0 && MaskLen(mask[..p + 1]) > 0 then MaskLen(mask[..p + 1]) - 1 else 1)
  }

  lemma RowLengths<T>(rows: seq<seq<T>>)
    ensures forall r :: 0 <= r < |rows| ==> |rows[r]| == Lengths(rows)[r]
  {
  }

  /** Cut the flat inputs of a prefill into rows of the given widths. */
  function PrefillRows(m: Metadata, widths: seq<nat>, items: seq<Item>, positions: seq<nat>): (rows: seq<Row>)
    requires |widths| == |m.blockTables|
    requires Sum(widths) == |items| == |positions| == |m.slotMapping|
    ensures |rows| == |widths|
    ensures forall r :: 0 <= r < |rows| ==> WellShaped(rows[r]) && |rows[r].items| == widths[r]
  {
    var rowItems, rowPositions, rowSlots :=
      Split(items, widths), Split(positions, widths), Split(m.slotMapping, widths);
    RowLengths(rowItems);
    RowLengths(rowPositions);
    RowLengths(rowSlots);
    seq(|widths|, r requires 0 <= r < |widths| => Row(m.blockTables[r], 0, rowItems[r], rowPositions[r], rowSlots[r]))
  }

  /** The greedy choice after every position of a row. */
  function RowLogits(net: Network, kv: seq<Kv>, bs: nat, row: Row): (logits: seq<Token>)
    requires bs > 0
    ensures |logits| == |row.items|
  {
    seq<Token>(|row.items|,
               j requires 0 <= j < |row.items| => net.head(Read(net, kv, row.table, bs, row.start + j + 1)))
  }

  function Logits(net: Network, kv: seq<Kv>, bs: nat, rows: seq<Row>): (logits: seq<seq<Token>>)
    requires bs > 0
    ensures |logits| == |rows|
  {
    seq(|rows|, r requires 0 <= r < |rows| => RowLogits(net, kv, bs, rows[r]))
  }

  /** Where row `r` starts when rows of these widths lie one after another. */
  function RowOffset(widths: seq<nat>, r: nat): nat
    requires r <= |widths|
  {
    Sum(widths[..r])
  }

  lemma RowOffsetStep(widths: seq<nat>, r: nat)
    requires r < |widths|
    ensures RowOffset(widths, r + 1) == RowOffset(widths, r) + widths[r] <= RowOffset(widths, |widths|)
  {
    SumPrefix(widths, r);
    SumPrefixBound(widths, r + 1);
    assert widths[..|widths|] == widths;
  }

  /** Every row's last real token. */
  function LastIndexes(widths: seq<nat>, lens: seq<nat>): (idx: seq<nat>)
    requires |widths| == |lens| && forall r :: 0 <= r < |lens| ==> lens[r] > 0
    ensures |idx| == |lens|
  {
    seq<nat>(|lens|, r requires 0 <= r < |lens| => RowOffset(widths, r) + lens[r] - 1)
  }

  /** Prompts cached and their first choices made; everything else as before. */
  ghost predicate PrefillDone(net: Network, p: Pool, kv: seq<Kv>, kv': seq<Kv>, ids: seq<nat>, prompts: seq<seq<Item>>,
                              next: seq<Token>)
    requires p.blockSize > 0
  {
    && |kv'| == |kv| && |next| == |prompts| == |ids|
    && (forall r :: 0 <= r < |ids| ==> Cached(net, p, kv', ids[r], prompts[r]) && next[r] == NextToken(net, prompts[r]))
    && forall id: nat, items :: id !in ids && Cached(net, p, kv, id, items) ==> Cached(net, p, kv', id, items)
  }

  /** Rows that start empty behind their requests' tables and carry the prompts first. */
  ghost predicate PromptRows(p: Pool, numBlocks: nat, ids: seq<nat>, rows: seq<Row>, lens: seq<nat>,
                             prompts: seq<seq<Item>>)
    requires p.blockSize > 0
  {
    && |rows| == |lens| == |prompts| == |ids|
    && forall r :: 0 <= r < |ids| ==>
         && RowFits(rows[r], Table(p, ids[r]), p.blockSize, numBlocks, lens[r])
         && rows[r].start == 0 && lens[r] > 0
         && rows[r].items[..lens[r]] == prompts[r]
  }

  lemma PromptRowsFit(p: Pool, numBlocks: nat, ids: seq<nat>, rows: seq<Row>, lens: seq<nat>, prompts: seq<seq<Item>>)
    requires Valid(p, numBlocks) && NoDup(ids) && PromptRows(p, numBlocks, ids, rows, lens, prompts)
    ensures BatchFits(rows, Tables(p, ids), lens, p.blockSize, numBlocks)
  {
    hide RowFits;
    forall r, s | 0 <= r < s < |rows|
      ensures Apart(Table(p, ids[r]), Table(p, ids[s])) && Apart(Table(p, ids[s]), Table(p, ids[r]))
    {
      TablesApart(p, ids[r], ids[s], numBlocks);
      TablesApart(p, ids[s], ids[r], numBlocks);
    }
  }

  /** The choice gathered for a row is the one greedy decoding of its prompt alone starts with. */
  lemma PromptCached(net: Network, p: Pool, numBlocks: nat, kv: seq<Kv>, ids: seq<nat>, rows: seq<Row>, lens: seq<nat>,
                     prompts: seq<seq<Item>>, r: nat)
    requires Valid(p, numBlocks) && |kv| == numBlocks * p.blockSize && NoDup(ids)
    requires PromptRows(p, numBlocks, ids, rows, lens, prompts) && r < |ids|
    ensures forall row :: row in rows ==> WellShaped(row)
    ensures var kv' := WriteRows(net, kv, p.blockSize, rows, |rows|);
            && Cached(net, p, kv', ids[r], prompts[r])
            && RowLogits(net, kv', p.blockSize, rows[r])[lens[r] - 1] == NextToken(net, prompts[r])
  {
    hide WriteRows, Read, Encode, BlockPool.Valid;
    NothingRead(net, kv, Table(p, ids[r]), p.blockSize);
    PromptRowsFit(p, numBlocks, ids, rows, lens, prompts);
    var kv' := WriteRows(net, kv, p.blockSize, rows, |rows|);
    var t := Table(p, ids[r]);
    WriteRowsEncodes(net, kv, p.blockSize, numBlocks, rows, Tables(p, ids), lens, |rows|, r, []);
    assert [] + rows[r].items[..lens[r]] == prompts[r];
    ReadThroughPrefix(net, kv', t, rows[r].table, p.blockSize, lens[r]);
  }

  lemma NothingRead(net: Network, kv: seq<Kv>, t: seq<nat>, bs: nat)
    requires bs > 0
    ensures Read(net, kv, t, bs, 0) == Encode(net, [])
  {
  }

  lemma LastIndexInRow(net: Network, kv: seq<Kv>, bs: nat, rows: seq<Row>, widths: seq<nat>, lens: seq<nat>, r: nat)
    requires bs > 0 && |rows| == |widths| == |lens| && r < |rows|
    requires forall s :: 0 <= s < |rows| ==> |rows[s].items| == widths[s]
    requires forall s :: 0 <= s < |rows| ==> 0 < lens[s] <= widths[s]
    ensures var flat := Flatten(Logits(net, kv, bs, rows));
            LastIndexes(widths, lens)[r] < |flat| &&
              flat[LastIndexes(widths, lens)[r]] == RowLogits(net, kv, bs, rows[r])[lens[r] - 1]
  {
    var logits := Logits(net, kv, bs, rows);
    assert Lengths(logits) == widths;
    FlattenRow(logits, r);
    var off := Sum(widths[..r]);
    assert Flatten(logits)[off..off + |logits[r]|][lens[r] - 1] == logits[r][lens[r] - 1];
  }

  /** The forward pass over prompt rows, whatever the layout, caches and starts each prompt alone. */
  lemma PrefillEncodes(net: Network, p: Pool, numBlocks: nat, kv: seq<Kv>, ids: seq<nat>, rows: seq<Row>,
                       widths: seq<nat>, lens: seq<nat>,
                       prompts: seq<seq<Item>>, next: seq<Token>)
    requires Valid(p, numBlocks) && |kv| == numBlocks * p.blockSize && NoDup(ids)
    requires PromptRows(p, numBlocks, ids, rows, lens, prompts)
    requires forall row :: row in rows ==> WellShaped(row)
    requires |widths| == |lens| == |next|
    requires forall s :: 0 <= s < |rows| ==> |rows[s].items| == widths[s]
    requires forall s :: 0 <= s < |rows| ==> 0 < lens[s] <= widths[s]
    requires var flat := Flatten(Logits(net, WriteRows(net, kv, p.blockSize, rows, |rows|), p.blockSize, rows));
             forall r :: 0 <= r < |lens| ==>
               LastIndexes(widths, lens)[r] < |flat| && next[r] == flat[LastIndexes(widths, lens)[r]]
    ensures PrefillDone(net, p, kv, WriteRows(net, kv, p.blockSize, rows, |rows|), ids, prompts, next)
  {
    var kv' := WriteRows(net, kv, p.blockSize, rows, |rows|);
    forall r | 0 <= r < |ids|
      ensures Cached(net, p, kv', ids[r], prompts[r]) && next[r] == NextToken(net, prompts[r])
    {
      PromptCached(net, p, numBlocks, kv, ids, rows, lens, prompts, r);
      LastIndexInRow(net, kv', p.blockSize, rows, widths, lens, r);
    }
    PromptRowsFit(p, numBlocks, ids, rows, lens, prompts);
    forall id: nat, items | id !in ids && Cached(net, p, kv, id, items)
      ensures Cached(net, p, kv', id, items)
    {
      forall r | 0 <= r < |ids|
        ensures Apart(Tables(p, ids)[r], Table(p, id))
      {
        TablesApart(p, ids[r], id, numBlocks);
      }
      WriteRowsFrame(net, kv, p.blockSize, numBlocks, rows, Tables(p, ids), lens, |rows|, Table(p, id), |items|);
    }
  }

  // ----- both layouts are prompt rows

  /** A right-padded batch: each row is its prompt's tokens followed by padding without placeholders. */
  ghost predicate PaddedBatch(rows: seq<seq<Token>>, masks: seq<seq<nat>>, vis: seq<seq<Token>>, lens: seq<nat>,
                              seqLen: nat, audioId: Token)
  {
    && |rows| == |masks| == |vis| == |lens|
    && forall r :: 0 <= r < |rows| ==> PaddedRow(rows[r], masks[r], vis[r], lens[r], seqLen, audioId)
  }

  ghost predicate PaddedRow(row: seq<Token>, mask: seq<nat>, vis: seq<Token>, len: nat, seqLen: nat, audioId: Token) {
    && |row| == |mask| == seqLen
    && RightPadded(mask)
    && MaskLen(mask) == len == |vis|
    && row[..len] == vis
    && CountAudio(row[len..], audioId) == 0
  }

  /** Allocated tables of the batch: distinct requests, each with room for its prompt. */
  ghost predicate PromptTables(p: Pool, numBlocks: nat, ids: seq<nat>, lens: seq<nat>) {
    && Valid(p, numBlocks)
    && NoDup(ids)
    && |ids| == |lens| > 0
    && forall r :: 0 <= r < |ids| ==> lens[r] > 0 && Covers(Table(p, ids[r]), p.blockSize, lens[r])
  }

  lemma CoveredSlots(table: seq<nat>, bs: nat, len: nat)
    requires bs > 0 && Covers(table, bs, len)
    ensures forall j :: 0 <= j < len ==> j / bs < |table| && LookupSlot(table, bs, j) == SlotOf(table, bs, j)
  {
    forall j | 0 <= j < len
      ensures j / bs < |table|
    {
      CoveredBlock(table, bs, j);
    }
  }

  lemma PackedRowFits(p: Pool, numBlocks: nat, id: nat, len: nat, cols: nat, items: seq<Item>)
    requires Valid(p, numBlocks) && Covers(Table(p, id), p.blockSize, len) && |items| == len
    ensures RowFits(Row(PadTable(Table(p, id), cols), 0, items, Positions(len),
                        PackedRow(Table(p, id), len, p.blockSize)),
                    Table(p, id), p.blockSize, numBlocks, len)
  {
    TableInPool(p, id, numBlocks);
    CoveredSlots(Table(p, id), p.blockSize, len);
  }

  lemma {:induction false} MaskLenFull(mask: seq<nat>)
    requires forall j :: 0 <= j < |mask| ==> mask[j] != 0
    ensures MaskLen(mask) == |mask|
  {
    if mask != [] {
      MaskLenFull(mask[..|mask| - 1]);
    }
  }

  lemma RopePositions(mask: seq<nat>, j: nat)
    requires RightPadded(mask) && j < MaskLen(mask)
    ensures RopeRow(mask)[j] == j
  {
    RightPaddedMask(mask);
    MaskLenFull(mask[..j + 1]);
  }

  lemma MaskedRowFits(p: Pool, numBlocks: nat, id: nat, mask: seq<nat>, cols: nat, items: seq<Item>)
    requires Valid(p, numBlocks) && RightPadded(mask) && Covers(Table(p, id), p.blockSize, MaskLen(mask))
    requires |items| == |mask|
    ensures RowFits(Row(PadTable(Table(p, id), cols), 0, items, RopeRow(mask),
                        MaskedRow(Table(p, id), mask, p.blockSize)),
                    Table(p, id), p.blockSize, numBlocks, MaskLen(mask))
  {
    TableInPool(p, id, numBlocks);
    CoveredSlots(Table(p, id), p.blockSize, MaskLen(mask));
    RightPaddedMask(mask);
    forall j | 0 <= j < MaskLen(mask)
      ensures RopeRow(mask)[j] == j
    {
      RopePositions(mask, j);
    }
  }

  function PositionRows(lens: seq<nat>): (rows: seq<seq<nat>>)
    ensures |rows| == |lens| && Lengths(rows) == lens
  {
    seq(|lens|, r requires 0 <= r < |lens| => Positions(lens[r]))
  }

  function RopeRows(masks: seq<seq<nat>>): (rows: seq<seq<nat>>)
    ensures |rows| == |masks| && Lengths(rows) == Lengths(masks)
  {
    seq(|masks|, r requires 0 <= r < |masks| => RopeRow(masks[r]))
  }

  /** Cutting the flat inputs gives back the rows they were built from. */
  lemma RowsRecovered(m: Metadata, widths: seq<nat>, items: seq<seq<Item>>, positions: seq<seq<nat>>,
                      slots: seq<seq<int>>)
    requires |widths| == |m.blockTables| && m.slotMapping == Flatten(slots)
    requires Lengths(items) == Lengths(positions) == Lengths(slots) == widths
    ensures Sum(widths) == |Flatten(items)| == |Flatten(positions)| == |m.slotMapping|
    ensures PrefillRows(m, widths, Flatten(items), Flatten(positions))
         == seq(|widths|, r requires 0 <= r < |widths| => Row(m.blockTables[r], 0, items[r], positions[r], slots[r]))
  {
    assert |items| == |Lengths(items)| && |positions| == |Lengths(positions)| && |slots| == |Lengths(slots)|;
    SplitFlatten(items);
    SplitFlatten(positions);
    SplitFlatten(slots);
  }

  /** The packed flat inputs, cut by prompt lengths, are the prompts with their own slots. */
  lemma PackedRecovered(tables: seq<seq<nat>>, bs: nat, vis: seq<seq<Token>>, lens: seq<nat>, audioId: Token,
                        audio: seq<AudioRow>)
    requires bs > 0 && |tables| == |lens|
    requires Lengths(vis) == lens && AudioOffset(vis, audioId, |vis|) == |audio|
    ensures |vis| == |lens| && CountAudio(Flatten(vis), audioId) <= |audio|
    ensures var m := PackedMetadata(tables, lens, bs);
            var items := Merge(Flatten(vis), audioId, audio);
            && Sum(lens) == |items| == |Flatten(PositionRows(lens))| == |m.slotMapping|
            && forall r :: 0 <= r < |lens| ==>
                 PrefillRows(m, lens, items, Flatten(PositionRows(lens)))[r]
                 == Row(m.blockTables[r], 0, Prompts(vis, audioId, audio)[r], Positions(lens[r]),
                        PackedRow(tables[r], lens[r], bs))
  {
    assert |vis| == |Lengths(vis)|;
    CountFlatten(vis, audioId);
    MergeFlatten(vis, audioId, audio);
    hide Merge, CountAudio, AudioOffset;
    var m := PackedMetadata(tables, lens, bs);
    RowLengths(vis);
    assert Lengths(Prompts(vis, audioId, audio)) == lens;
    RowsRecovered(m, lens, Prompts(vis, audioId, audio), PositionRows(lens), PackedRows(tables, lens, bs));
  }

  lemma PackedArePromptRows(p: Pool, numBlocks: nat, ids: seq<nat>, lens: seq<nat>, cols: nat, prompts: seq<seq<Item>>,
                            rows: seq<Row>)
    requires PromptTables(p, numBlocks, ids, lens)
    requires |prompts| == |rows| == |ids| && Lengths(prompts) == lens
    requires forall r :: 0 <= r < |ids| ==>
               rows[r] == Row(PadTable(Table(p, ids[r]), cols), 0, prompts[r], Positions(lens[r]),
                              PackedRow(Table(p, ids[r]), lens[r], p.blockSize))
    ensures PromptRows(p, numBlocks, ids, rows, lens, prompts)
  {
    hide RowFits, PackedRow, PadTable;
    forall r | 0 <= r < |ids|
      ensures RowFits(rows[r], Table(p, ids[r]), p.blockSize, numBlocks, lens[r])
      ensures rows[r].items[..lens[r]] == prompts[r]
    {
      RowLengths(prompts);
      PackedRowFits(p, numBlocks, ids[r], lens[r], cols, prompts[r]);
    }
  }

  lemma {:induction false} PaddedOffsets(rows: seq<seq<Token>>, masks: seq<seq<nat>>, vis: seq<seq<Token>>,
                                         lens: seq<nat>, seqLen: nat, audioId: Token, k: nat)
    requires PaddedBatch(rows, masks, vis, lens, seqLen, audioId) && k <= |rows|
    ensures AudioOffset(rows, audioId, k) == AudioOffset(vis, audioId, k)
  {
    if k > 0 {
      PaddedOffsets(rows, masks, vis, lens, seqLen, audioId, k - 1);
      assert PaddedRow(rows[k - 1], masks[k - 1], vis[k - 1], lens[k - 1], seqLen, audioId);
      assert rows[k - 1] == vis[k - 1] + rows[k - 1][lens[k - 1]..];
      CountAudioConcat(vis[k - 1], rows[k - 1][lens[k - 1]..], audioId);
    }
  }

  lemma PaddedPrompt(rows: seq<seq<Token>>, masks: seq<seq<nat>>, vis: seq<seq<Token>>, lens: seq<nat>, seqLen: nat,
                     audioId: Token, audio: seq<AudioRow>, r: nat)
    requires PaddedBatch(rows, masks, vis, lens, seqLen, audioId) && r < |rows|
    requires AudioOffset(rows, audioId, |rows|) <= |audio| && AudioOffset(vis, audioId, |vis|) <= |audio|
    ensures |Prompts(rows, audioId, audio)[r]| == seqLen && lens[r] <= seqLen
    ensures Prompts(rows, audioId, audio)[r][..lens[r]] == Prompts(vis, audioId, audio)[r]
  {
    hide CountAudio, AudioOffset, Merge;
    PaddedOffsets(rows, masks, vis, lens, seqLen, audioId, r);
    PaddedOffsets(rows, masks, vis, lens, seqLen, audioId, r + 1);
    assert PaddedRow(rows[r], masks[r], vis[r], lens[r], seqLen, audioId);
    var own, pad := AudioOf(vis, audioId, audio, r), rows[r][lens[r]..];
    assert AudioOf(rows, audioId, audio, r) == own == own + [];
    assert rows[r] == vis[r] + pad;
    MergeConcat(vis[r], pad, audioId, own, []);
  }

  lemma PaddedRecovered(tables: seq<seq<nat>>, bs: nat, rows: seq<seq<Token>>, masks: seq<seq<nat>>, audioId: Token,
                        audio: seq<AudioRow>)
    requires bs > 0 && |tables| == |masks| == |rows| > 0 && Lengths(masks) == Lengths(rows)
    requires AudioOffset(rows, audioId, |rows|) == |audio|
    ensures CountAudio(Flatten(rows), audioId) <= |audio|
    ensures var m := PaddedMetadata(tables, masks, bs);
            var items := Merge(Flatten(rows), audioId, audio);
            && Sum(Lengths(rows)) == |items| == |Flatten(RopeRows(masks))| == |m.slotMapping|
            && forall r :: 0 <= r < |rows| ==>
                 PrefillRows(m, Lengths(rows), items, Flatten(RopeRows(masks)))[r]
                 == Row(m.blockTables[r], 0, Prompts(rows, audioId, audio)[r], RopeRow(masks[r]),
                        MaskedRow(tables[r], masks[r], bs))
  {
    CountFlatten(rows, audioId);
    MergeFlatten(rows, audioId, audio);
    hide Merge, CountAudio, AudioOffset;
    var m := PaddedMetadata(tables, masks, bs);
    assert Lengths(Prompts(rows, audioId, audio)) == Lengths(rows);
    RowLengths(masks);
    assert Lengths(MaskedRows(tables, masks, bs)) == Lengths(masks);
    RowsRecovered(m, Lengths(rows), Prompts(rows, audioId, audio), RopeRows(masks), MaskedRows(tables, masks, bs));
  }

  lemma PaddedArePromptRows(p: Pool, numBlocks: nat, ids: seq<nat>, masks: seq<seq<nat>>, lens: seq<nat>, cols: nat,
                            full: seq<seq<Item>>, prompts: seq<seq<Item>>, rows: seq<Row>)
    requires PromptTables(p, numBlocks, ids, lens)
    requires |masks| == |full| == |prompts| == |rows| == |ids|
    requires forall r :: 0 <= r < |ids| ==>
               && RightPadded(masks[r]) && MaskLen(masks[r]) == lens[r] <= |full[r]| == |masks[r]|
               && full[r][..lens[r]] == prompts[r]
    requires forall r :: 0 <= r < |ids| ==>
               rows[r] == Row(PadTable(Table(p, ids[r]), cols), 0, full[r], RopeRow(masks[r]),
                              MaskedRow(Table(p, ids[r]), masks[r], p.blockSize))
    ensures PromptRows(p, numBlocks, ids, rows, lens, prompts)
  {
    hide RowFits, MaskedRow, PadTable, RopeRow, RightPadded, MaskLen;
    forall r | 0 <= r < |ids|
      ensures RowFits(rows[r], Table(p, ids[r]), p.blockSize, numBlocks, lens[r])
    {
      MaskedRowFits(p, numBlocks, ids[r], masks[r], cols, full[r]);
    }
  }

  // ----- batches as they arrive

  /** Masked-out positions carry no audio placeholder. */
  ghost predicate CleanPadding(ids: seq<Token>, mask: seq<nat>, audioId: Token) {
    |ids| == |mask| && forall p :: 0 <= p < |ids| && mask[p] == 0 ==> ids[p] != audioId
  }

  ghost predicate SameLength(idRows: seq<seq<Token>>, masks: seq<seq<nat>>, seqLen: nat) {
    && |idRows| == |masks|
    && forall i :: 0 <= i < |idRows| ==> |idRows[i]| == |masks[i]| == seqLen
  }

  function VisibleRows(idRows: seq<seq<Token>>, masks: seq<seq<nat>>): (vis: seq<seq<Token>>)
    requires |idRows| == |masks| && forall i :: 0 <= i < |idRows| ==> |idRows[i]| == |masks[i]|
    ensures |vis| == |idRows| && Lengths(vis) == MaskLens(masks)
  {
    seq(|idRows|, i requires 0 <= i < |idRows| => Visible(idRows[i], masks[i]))
  }

  lemma {:induction false} CountAudioNone(ids: seq<Token>, audioId: Token)
    requires forall p :: 0 <= p < |ids| ==> ids[p] != audioId
    ensures CountAudio(ids, audioId) == 0
  {
    if ids != [] {
      CountAudioNone(ids[..|ids| - 1], audioId);
    }
  }

  /** A right-padded row needs no normalisation. */
  lemma RightPaddedRow(ids: seq<Token>, mask: seq<nat>, audioId: Token)
    requires CleanPadding(ids, mask, audioId) && RightPadded(mask)
    ensures PaddedRow(ids, mask, Visible(ids, mask), MaskLen(mask), |ids|, audioId)
  {
    VisiblePrefix(ids, mask);
    RightPaddedMask(mask);
    CountAudioNone(ids[MaskLen(mask)..], audioId);
  }

  /** Allocate the prompts of a batch one after the other. */
  function GrowPrompts(p: Pool, ids: seq<nat>, lens: seq<nat>, k: nat): (q: Pool)
    requires p.blockSize > 0 && k <= |ids| == |lens|
    ensures q.blockSize == p.blockSize
  {
    if k == 0 then p else Grow(GrowPrompts(p, ids, lens, k - 1), ids[k - 1], lens[k - 1])
  }

  ghost predicate PromptsFit(p: Pool, ids: seq<nat>, lens: seq<nat>, k: nat)
    requires p.blockSize > 0 && k <= |ids| == |lens|
  {
    forall i :: 0 <= i < k ==> Fits(GrowPrompts(p, ids, lens, i), ids[i], lens[i])
  }

  /** Prompts that end at once give back what they do not need. */
  function TrimFinished(p: Pool, ids: seq<nat>, lens: seq<nat>, next: seq<Token>, eos: seq<Token>, k: nat): (q: Pool)
    requires p.blockSize > 0 && k <= |ids| == |lens| == |next|
    ensures q.blockSize == p.blockSize
  {
    if k == 0 then p else
      var q := TrimFinished(p, ids, lens, next, eos, k - 1);
      if next[k - 1] in eos then Trim(q, ids[k - 1], lens[k - 1]) else q
  }

  lemma LastFits(p: Pool, ids: seq<nat>, lens: seq<nat>, k: nat)
    requires p.blockSize > 0 && 0 < k <= |ids| == |lens| && PromptsFit(p, ids, lens, k)
    ensures PromptsFit(p, ids, lens, k - 1) && Fits(GrowPrompts(p, ids, lens, k - 1), ids[k - 1], lens[k - 1])
    ensures GrowPrompts(p, ids, lens, k) == Grow(GrowPrompts(p, ids, lens, k - 1), ids[k - 1], lens[k - 1])
  {
    hide Needed;
  }

  lemma GrowKeepsCover(q: Pool, id: nat, tokens: nat, other: nat, n: nat)
    requires q.blockSize > 0 && Covers(Table(q, other), q.blockSize, n)
    ensures Covers(Table(Grow(q, id, tokens), other), q.blockSize, n)
  {
    GrowKeepsPrefix(q, id, tokens, other);
    hide Grow;
    CoversMonotone(Table(q, other), Table(Grow(q, id, tokens), other), q.blockSize, n);
  }

  lemma {:induction false} GrowPromptsCovers(p: Pool, ids: seq<nat>, lens: seq<nat>, k: nat, i: nat)
    requires p.blockSize > 0 && i < k <= |ids| == |lens| && PromptsFit(p, ids, lens, k)
    ensures Covers(Table(GrowPrompts(p, ids, lens, k), ids[i]), p.blockSize, lens[i])
  {
    hide Covers, Grow, Fits, GrowPrompts, Table, PromptsFit;
    LastFits(p, ids, lens, k);
    var q := GrowPrompts(p, ids, lens, k - 1);
    if i < k - 1 {
      GrowPromptsCovers(p, ids, lens, k - 1, i);
      GrowKeepsCover(q, ids[k - 1], lens[k - 1], ids[i], lens[i]);
    } else {
      GrowKeepsPrefix(q, ids[i], lens[i], ids[i]);
    }
  }

  lemma {:induction false} GrowPromptsValid(p: Pool, ids: seq<nat>, lens: seq<nat>, k: nat, numBlocks: nat)
    requires Valid(p, numBlocks) && k <= |ids| == |lens|
    ensures Valid(GrowPrompts(p, ids, lens, k), numBlocks)
    ensures forall id: nat :: id !in ids[..k] ==> Table(GrowPrompts(p, ids, lens, k), id) == Table(p, id)
  {
    if k > 0 {
      GrowPromptsValid(p, ids, lens, k - 1, numBlocks);
      GrowValid(GrowPrompts(p, ids, lens, k - 1), ids[k - 1], lens[k - 1], numBlocks);
      assert ids[..k] == ids[..k - 1] + [ids[k - 1]];
    }
  }

  lemma {:induction false} TrimFinishedTables(p: Pool, ids: seq<nat>, lens: seq<nat>, next: seq<Token>, eos: seq<Token>,
                                              k: nat, numBlocks: nat)
    requires Valid(p, numBlocks) && k <= |ids| == |lens| == |next| && NoDup(ids)
    ensures Valid(TrimFinished(p, ids, lens, next, eos, k), numBlocks)
    ensures forall id: nat :: Table(TrimFinished(p, ids, lens, next, eos, k), id) <= Table(p, id)
    ensures forall id: nat ::
              (forall i :: 0 <= i < k && next[i] in eos ==> ids[i] != id) ==>
                Table(TrimFinished(p, ids, lens, next, eos, k), id) == Table(p, id)
  {
    if k > 0 {
      TrimFinishedTables(p, ids, lens, next, eos, k - 1, numBlocks);
      var q := TrimFinished(p, ids, lens, next, eos, k - 1);
      TrimValid(q, ids[k - 1], lens[k - 1], numBlocks);
      forall id: nat
        ensures Table(Trim(q, ids[k - 1], lens[k - 1]), id) <= Table(q, id)
        ensures id != ids[k - 1] ==> Table(Trim(q, ids[k - 1], lens[k - 1]), id) == Table(q, id)
      {
        TrimKeepsPrefix(q, ids[k - 1], lens[k - 1], id);
      }
    }
  }
}
