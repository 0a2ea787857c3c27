/** Input metadata of the paged forward passes: which slot each token is written to, and which
    blocks each sequence reads. */
module PagedKvCache {
  import opened Prelude
  import opened Decoding
  import opened SlotMapping

  /** `cuSeqlens` are the cumulative query lengths; in every builder here they serve the keys too. */
  datatype Metadata = Metadata(
    slotMapping: seq<int>,
    blockTables: seq<seq<nat>>,
    contextLens: seq<nat>,
    maxContextLen: nat,
    prefillCausalOnly: bool,
    queryLens: Option<seq<nat>>,
    cuSeqlens: Option<seq<nat>>)

  function MaxOf(lens: seq<nat>): nat {
    if lens == [] then 0 else Max(MaxOf(lens[..|lens| - 1]), lens[|lens| - 1])
  }

  lemma {:induction false} MaxOfIsMax(lens: seq<nat>)
    ensures forall i :: 0 <= i < |lens| ==> lens[i] <= MaxOf(lens)
    ensures lens != [] ==> MaxOf(lens) in lens
  {
    if lens != [] {
      var k := |lens| - 1;
      MaxOfIsMax(lens[..k]);
      assert forall x :: x in lens[..k] ==> x in lens;
    }
  }

  lemma MaxOfAppend(lens: seq<nat>, len: nat)
    ensures MaxOf(lens + [len]) == Max(MaxOf(lens), len)
  {
    assert (lens + [len])[..|lens|] == lens;
  }

  function Cumulative(lens: seq<nat>): (cu: seq<nat>)
    ensures |cu| == |lens| + 1
  {
    seq(|lens| + 1, i requires 0 <= i <= |lens| => Sum(lens[..i]))
  }

  /** The sums start at zero and grow by one length at a time, so they cut any rows of these lengths, laid out one
      after the other, apart again. */
  lemma CumulativeCuts<T>(rows: seq<seq<T>>, r: nat)
    requires r < |rows|
    ensures var cu := Cumulative(Lengths(rows));
            && cu[0] == 0 && cu[r + 1] == cu[r] + |rows[r]| && cu[|rows|] == |Flatten(rows)|
            && cu[r + 1] <= |Flatten(rows)| && Flatten(rows)[cu[r]..cu[r + 1]] == rows[r]
  {
    hide Flatten, Sum;
    var lens := Lengths(rows);
    assert lens[..|rows|] == lens;
    assert Sum(lens[..0]) == 0 by {
      NoLengths(lens);
    }
    FlattenLength(rows);
    SumPrefix(lens, r);
    FlattenRow(rows, r);
  }

  lemma NoLengths(lens: seq<nat>)
    ensures Sum(lens[..0]) == 0
  {
  }

  method CumulativeSeqlensFromLengths(lens: seq<nat>) returns (cu: seq<nat>)
    ensures cu == Cumulative(lens)
  {
    cu := [0];
    var total := 0;
    for i := 0 to |lens|
      invariant total == Sum(lens[..i])
      invariant |cu| == i + 1 && forall k :: 0 <= k <= i ==> cu[k] == Sum(lens[..k])
    {
      SumPrefix(lens, i);
      total := total + lens[i];
      cu := cu + [total];
    }
  }

  function PadTable(table: seq<nat>, cols: nat): (row: seq<nat>)
    ensures table <= row && |row| == Max(|table|, cols)
    ensures forall j :: |table| <= j < |row| ==> row[j] == 0
  {
    if |table| >= cols then table else table + seq(cols - |table|, _ => 0)
  }

  /** The rectangular block table: every row filled up with block 0. */
  function PadTables(tables: seq<seq<nat>>, cols: nat): (rows: seq<seq<nat>>)
    ensures |rows| == |tables|
  {
    seq(|tables|, i requires 0 <= i < |tables| => PadTable(tables[i], cols))
  }

  method FillBlockTables(tables: seq<seq<nat>>, cols: nat) returns (rows: seq<seq<nat>>)
    ensures rows == PadTables(tables, cols)
  {
    rows := [];
    for i := 0 to |tables|
      invariant rows == PadTables(tables[..i], cols)
    {
      var row := tables[i];
      while |row| < cols
        invariant row == PadTable(tables[i], |row|)
        invariant |tables[i]| <= |row| <= Max(cols, |tables[i]|)
      {
        row := row + [0];
      }
      rows := rows + [row];
    }
    assert tables[..|tables|] == tables;
  }

  ghost predicate SlotExists(table: seq<nat>, bs: nat, numBlocks: nat, pos: nat)
    requires bs > 0
  {
    pos / bs < |table| && table[pos / bs] < numBlocks
  }

  /** `SlotOf`, or padding where the table ends. */
  function LookupSlot(table: seq<nat>, bs: nat, pos: nat): int
    requires bs > 0
  {
    if pos / bs < |table| then SlotOf(table, bs, pos) else PAD_SLOT_ID
  }

  class PagedKvCache {
    const blockSize: nat
    const numBlocks: nat

    /** The cached entries, by slot. */
    var kv: seq<Kv>

    constructor NewPool(net: Network, blockSize: nat, numBlocks: nat)
      requires blockSize > 0
      ensures this.blockSize == blockSize && this.numBlocks == numBlocks
      ensures kv == seq(numBlocks * blockSize, _ => net.blank)
    {
      this.blockSize := blockSize;
      this.numBlocks := numBlocks;
      kv := seq(numBlocks * blockSize, _ => net.blank);
    }

    method SlotForBlockTablePosition(tables: seq<seq<nat>>, s: nat, pos: nat) returns (r: Outcome<int>)
      requires blockSize > 0
      ensures r.Ok? <==> s < |tables| && SlotExists(tables[s], blockSize, numBlocks, pos)
      ensures r.Ok? ==> r.value == LookupSlot(tables[s], blockSize, pos)
    {
      if s >= |tables| {
        return Err("missing block table for sequence");
      }
      var blockIdx, offset := pos / blockSize, pos % blockSize;
      if blockIdx >= |tables[s]| {
        return Err("missing block table entry");
      }
      var blockId := tables[s][blockIdx];
      if blockId >= numBlocks {
        return Err("block id exceeds paged cache capacity");
      }
      r := Ok(blockId * blockSize + offset);
    }

    /** The slots of one masked row, and how many of its tokens are real. */
    method MapMaskedRow(tables: seq<seq<nat>>, s: nat, mask: seq<nat>) returns (r: Outcome<(seq<int>, nat)>)
      requires blockSize > 0 && s < |tables|
      ensures r.Ok? <==> MaskedRowOk(tables[s], mask, blockSize, numBlocks)
      ensures r.Ok? ==> r.value == (MaskedRow(tables[s], mask, blockSize), MaskLen(mask))
    {
      hide SlotExists, LookupSlot, SlotOf;
      var slots: seq<int> := [];
      var contextLen := 0;
      for position := 0 to |mask|
        invariant slots == MaskedRow(tables[s], mask, blockSize)[..position]
        invariant contextLen == MaskLen(mask[..position])
        invariant forall p :: 0 <= p < position && mask[p] != 0 ==> SlotExists(tables[s], blockSize, numBlocks, p)
      {
        assert mask[..position + 1][..position] == mask[..position];
        if mask[position] == 0 {
          slots := slots + [PAD_SLOT_ID];
        } else {
          var slot := SlotForBlockTablePosition(tables, s, position);
          if slot.Err? {
            return Err(slot.error);
          }
          slots := slots + [slot.value];
          contextLen := contextLen + 1;
        }
      }
      assert mask[..|mask|] == mask;
      assert MaskedRow(tables[s], mask, blockSize)[..|mask|] == MaskedRow(tables[s], mask, blockSize);
      r := Ok((slots, contextLen));
    }

    /** Slots, context lengths and the longest context of a batch of masked rows. */
    method MapMaskedRows(tables: seq<seq<nat>>, masks: seq<seq<nat>>, seqLen: nat)
      returns (r: Outcome<(seq<int>, seq<nat>, nat)>)
      requires blockSize > 0 && |tables| == |masks|
      ensures r.Ok? <==>
                forall s ::
                  0 <= s < |masks| ==> |masks[s]| == seqLen && MaskedRowOk(tables[s], masks[s], blockSize, numBlocks)
      ensures r.Ok? ==>
                r.value == (Flatten(MaskedRows(tables, masks, blockSize)), MaskLens(masks), MaxOf(MaskLens(masks)))
    {
      hide MaskedRowOk, MaskedRow;
      var slots: seq<int> := [];
      var contexts: seq<nat> := [];
      var maxContext := 0;
      ghost var rows := MaskedRows(tables, masks, blockSize);
      for s := 0 to |masks|
        invariant forall i :: 0 <= i < s ==> |masks[i]| == seqLen
        invariant forall i :: 0 <= i < s ==> MaskedRowOk(tables[i], masks[i], blockSize, numBlocks)
        invariant slots == Flatten(rows[..s])
        invariant |contexts| == s && forall i :: 0 <= i < s ==> contexts[i] == MaskLen(masks[i])
        invariant maxContext == MaxOf(contexts)
      {
        if |masks[s]| != seqLen {
          return Err("attention_mask row len mismatch");
        }
        var mapped := MapMaskedRow(tables, s, masks[s]);
        if mapped.Err? {
          return Err(mapped.error);
        }
        FlattenPrefix(rows, s);
        MaxOfAppend(contexts, mapped.value.1);
        slots := slots + mapped.value.0;
        contexts := contexts + [mapped.value.1];
        maxContext := Max(maxContext, mapped.value.1);
      }
      assert rows[..|masks|] == rows && contexts == MaskLens(masks);
      r := Ok((slots, contexts, maxContext));
    }

    /** Padded prefill: one slot per mask entry, padding entries get `PAD_SLOT_ID`. */
    method InputMetadataFromAttentionMasks(tables: seq<seq<nat>>, masks: seq<seq<nat>>) returns (r: Outcome<Metadata>)
      requires blockSize > 0
      ensures r.Ok? <==> PaddedOk(tables, masks, blockSize, numBlocks)
      ensures r.Ok? ==> r.value == PaddedMetadata(tables, masks, blockSize)
    {
      hide MaskedRowOk;
      if |masks| == 0 || |tables| != |masks| {
        return Err("paged metadata batch mismatch");
      }
      var seqLen := |masks[0]|;
      if seqLen == 0 {
        return Err("attention mask rows must be non-empty");
      }
      var maxBlocks := MaxOf(Lengths(tables));
      if maxBlocks == 0 {
        return Err("paged metadata requires at least one block per sequence");
      }
      var mapped := MapMaskedRows(tables, masks, seqLen);
      if mapped.Err? {
        return Err(mapped.error);
      }
      var (slots, contexts, maxContext) := mapped.value;
      var blockTables := FillBlockTables(tables, maxBlocks);
      var cu := CumulativeSeqlensFromLengths(contexts);
      var causalOnly := forall i :: 0 <= i < |contexts| ==> contexts[i] == seqLen;
      r := Ok(Metadata(slots, blockTables, contexts, maxContext, causalOnly, Some(contexts), Some(cu)));
    }

    method MapPackedRow(tables: seq<seq<nat>>, s: nat, len: nat) returns (r: Outcome<seq<int>>)
      requires blockSize > 0 && s < |tables|
      ensures r.Ok? <==> PackedRowOk(tables[s], len, blockSize, numBlocks)
      ensures r.Ok? ==> r.value == PackedRow(tables[s], len, blockSize)
    {
      hide SlotExists, LookupSlot, SlotOf;
      var slots: seq<int> := [];
      for position := 0 to len
        invariant slots == PackedRow(tables[s], len, blockSize)[..position]
        invariant forall p :: 0 <= p < position ==> SlotExists(tables[s], blockSize, numBlocks, p)
      {
        var slot := SlotForBlockTablePosition(tables, s, position);
        if slot.Err? {
          return Err(slot.error);
        }
        slots := slots + [slot.value];
      }
      r := Ok(slots);
    }

    /** Packed prefill: the rows' tokens one after another, without padding. */
    method InputMetadataFromQueryLens(tables: seq<seq<nat>>, lens: seq<nat>) returns (r: Outcome<Metadata>)
      requires blockSize > 0
      ensures r.Ok? <==> PackedOk(tables, lens, blockSize, numBlocks)
      ensures r.Ok? ==> r.value == PackedMetadata(tables, lens, blockSize)
    {
      hide PackedRowOk, PackedRow;
      var batch := |lens|;
      if batch == 0 || |tables| != batch {
        return Err("paged metadata batch mismatch");
      }
      var maxBlocks := MaxOf(Lengths(tables));
      if maxBlocks == 0 {
        return Err("paged metadata requires at least one block per sequence");
      }
      for i := 0 to batch
        invariant forall k :: 0 <= k < i ==> lens[k] > 0
      {
        if lens[i] == 0 {
          return Err("packed prefill query length must be non-zero");
        }
      }
      var slots: seq<int> := [];
      ghost var rows := PackedRows(tables, lens, blockSize);
      for s := 0 to batch
        invariant forall i :: 0 <= i < s ==> PackedRowOk(tables[i], lens[i], blockSize, numBlocks)
        invariant slots == Flatten(rows[..s])
      {
        var mapped := MapPackedRow(tables, s, lens[s]);
        if mapped.Err? {
          return Err(mapped.error);
        }
        slots := slots + mapped.value;
        FlattenPrefix(rows, s);
        PackedRowLongEnough(tables[s], lens[s], blockSize, numBlocks);
        if |tables[s]| < DivCeil(lens[s], blockSize) {
          return Err("paged block table too short for packed prefill");
        }
      }
      assert rows[..batch] == rows;
      var blockTables := FillBlockTables(tables, maxBlocks);
      var cu := CumulativeSeqlensFromLengths(lens);
      r := Ok(Metadata(slots, blockTables, lens, MaxOf(lens), true, Some(lens), Some(cu)));
    }

    /** Slots, context lengths and the longest context of one decode step. */
    method MapDecodeStep(tables: seq<seq<nat>>, promptLens: seq<nat>, step: nat)
      returns (r: Outcome<(seq<int>, seq<nat>, nat)>)
      requires blockSize > 0 && |tables| == |promptLens|
      ensures r.Ok? <==> DecodeStepOk(tables, promptLens, blockSize, numBlocks, step)
      ensures r.Ok? ==> r.value == (DecodeSlots(tables, promptLens, blockSize, step), DecodeContexts(promptLens, step),
                                    MaxOf(DecodeContexts(promptLens, step)))
    {
      hide SlotExists, LookupSlot, SlotOf;
      var slots: seq<int> := [];
      var contexts: seq<nat> := [];
      var maxContext := 0;
      for s := 0 to |tables|
        invariant forall i :: 0 <= i < s ==> DecodeRowOk(tables[i], promptLens[i], blockSize, numBlocks, step)
        invariant |slots| == |contexts| == s
        invariant forall i :: 0 <= i < s ==> slots[i] == LookupSlot(tables[i], blockSize, promptLens[i] + step)
        invariant forall i :: 0 <= i < s ==> contexts[i] == promptLens[i] + step + 1
        invariant maxContext == MaxOf(contexts)
      {
        var position := promptLens[s] + step;
        var contextLen := position + 1;
        if contextLen > numBlocks * blockSize {
          return Err("batch decode context length exceeds paged kv cache sequence capacity");
        }
        var slot := SlotForBlockTablePosition(tables, s, position);
        if slot.Err? {
          return Err(slot.error);
        }
        MaxOfAppend(contexts, contextLen);
        slots := slots + [slot.value];
        contexts := contexts + [contextLen];
        maxContext := Max(maxContext, contextLen);
      }
      assert slots == DecodeSlots(tables, promptLens, blockSize, step);
      assert contexts == DecodeContexts(promptLens, step);
      r := Ok((slots, contexts, maxContext));
    }

    /** Decode metadata for `steps` consecutive steps at once; `cols` columns of block table. */
    method DecodeMetadataForBatchSteps(tables: seq<seq<nat>>, promptLens: seq<nat>, steps: nat)
      returns (r: Outcome<seq<Metadata>>)
      requires blockSize > 0
      ensures r.Ok? <==>
                DecodeBatchOk(tables, promptLens) && forall step :: 0 <= step < steps ==>
                  DecodeStepOk(tables, promptLens, blockSize, numBlocks, step)
      ensures r.Ok? ==>
                |r.value| == steps && forall step :: 0 <= step < steps ==>
                  r.value[step] == DecodeMetadata(tables, promptLens, blockSize, step)
    {
      hide SlotExists, LookupSlot, SlotOf;
      var batch := |tables|;
      if batch == 0 || |promptLens| != batch {
        return Err("paged batch decode metadata mismatch");
      }
      var maxBlocks := MaxOf(Lengths(tables));
      if maxBlocks == 0 {
        return Err("paged batch decode metadata requires at least one block per sequence");
      }
      var blockTables := FillBlockTables(tables, maxBlocks);
      var all: seq<Metadata> := [];
      for step := 0 to steps
        invariant forall k :: 0 <= k < step ==> DecodeStepOk(tables, promptLens, blockSize, numBlocks, k)
        invariant |all| == step
        invariant forall k :: 0 <= k < step ==> all[k] == DecodeMetadata(tables, promptLens, blockSize, k)
      {
        var mapped := MapDecodeStep(tables, promptLens, step);
        if mapped.Err? {
          return Err(mapped.error);
        }
        var (slots, contexts, maxContext) := mapped.value;
        all := all + [Metadata(slots, blockTables, contexts, maxContext, false, None, None)];
      }
      r := Ok(all);
    }

    method DecodeMetadataForBatchStep(tables: seq<seq<nat>>, promptLens: seq<nat>, step: nat)
      returns (r: Outcome<Metadata>)
      requires blockSize > 0
      ensures r.Ok? <==>
                DecodeBatchOk(tables, promptLens) && forall k :: 0 <= k <= step ==>
                  DecodeStepOk(tables, promptLens, blockSize, numBlocks, k)
      ensures r.Ok? ==> r.value == DecodeMetadata(tables, promptLens, blockSize, step)
    {
      var all := DecodeMetadataForBatchSteps(tables, promptLens, step + 1);
      r := if all.Ok? then Ok(all.value[step]) else Err(all.error);
    }
  }

  // ----- what the builders compute

  function MaskLen(mask: seq<nat>): (n: nat)
    ensures n <= |mask|
  {
    if mask == [] then 0 else MaskLen(mask[..|mask| - 1]) + (if mask[|mask| - 1] != 0 then 1 else 0)
  }

  function MaskLens(masks: seq<seq<nat>>): (lens: seq<nat>)
    ensures |lens| == |masks|
  {
    seq(|masks|, i requires 0 <= i < |masks| => MaskLen(masks[i]))
  }

  function MaskedRow(table: seq<nat>, mask: seq<nat>, bs: nat): (row: seq<int>)
    requires bs > 0
    ensures |row| == |mask|
  {
    seq(|mask|, p requires 0 <= p < |mask| => if mask[p] == 0 then PAD_SLOT_ID else LookupSlot(table, bs, p))
  }

  function MaskedRows(tables: seq<seq<nat>>, masks: seq<seq<nat>>, bs: nat): (rows: seq<seq<int>>)
    requires bs > 0 && |tables| == |masks|
    ensures |rows| == |tables|
  {
    seq(|tables|, s requires 0 <= s < |tables| => MaskedRow(tables[s], masks[s], bs))
  }

  ghost predicate MaskedRowOk(table: seq<nat>, mask: seq<nat>, bs: nat, numBlocks: nat)
    requires bs > 0
  {
    forall p :: 0 <= p < |mask| && mask[p] != 0 ==> SlotExists(table, bs, numBlocks, p)
  }

  ghost predicate PaddedOk(tables: seq<seq<nat>>, masks: seq<seq<nat>>, bs: nat, numBlocks: nat)
    requires bs > 0
  {
    && |masks| == |tables| > 0
    && |masks[0]| > 0
    && MaxOf(Lengths(tables)) > 0
    && forall s :: 0 <= s < |masks| ==> |masks[s]| == |masks[0]| && MaskedRowOk(tables[s], masks[s], bs, numBlocks)
  }

  function PaddedMetadata(tables: seq<seq<nat>>, masks: seq<seq<nat>>, bs: nat): Metadata
    requires bs > 0 && |tables| == |masks| > 0
  {
    var lens := MaskLens(masks);
    Metadata(Flatten(MaskedRows(tables, masks, bs)), PadTables(tables, MaxOf(Lengths(tables))), lens, MaxOf(lens),
             forall i :: 0 <= i < |lens| ==> lens[i] == |masks[0]|, Some(lens), Some(Cumulative(lens)))
  }

  function PackedRow(table: seq<nat>, len: nat, bs: nat): (row: seq<int>)
    requires bs > 0
    ensures |row| == len
  {
    seq(len, p requires 0 <= p < len => LookupSlot(table, bs, p))
  }

  function PackedRows(tables: seq<seq<nat>>, lens: seq<nat>, bs: nat): (rows: seq<seq<int>>)
    requires bs > 0 && |tables| == |lens|
    ensures Lengths(rows) == lens
  {
    seq(|tables|, s requires 0 <= s < |tables| => PackedRow(tables[s], lens[s], bs))
  }

  ghost predicate PackedRowOk(table: seq<nat>, len: nat, bs: nat, numBlocks: nat)
    requires bs > 0
  {
    forall p :: 0 <= p < len ==> SlotExists(table, bs, numBlocks, p)
  }

  lemma PackedRowLongEnough(table: seq<nat>, len: nat, bs: nat, numBlocks: nat)
    requires bs > 0 && len > 0 && PackedRowOk(table, len, bs, numBlocks)
    ensures DivCeil(len, bs) <= |table|
  {
    assert SlotExists(table, bs, numBlocks, len - 1);
    CoveredBlock(table, bs, len - 1);
    DivCeilLeast(len, bs, |table|);
  }

  lemma PackedRowCovered(table: seq<nat>, len: nat, bs: nat, numBlocks: nat)
    requires bs > 0 && PackedRowOk(table, len, bs, numBlocks)
    ensures forall p :: 0 <= p < len ==> p / bs < |table|
  {
    forall p | 0 <= p < len
      ensures p / bs < |table|
    {
      assert SlotExists(table, bs, numBlocks, p);
    }
  }

  ghost predicate PackedOk(tables: seq<seq<nat>>, lens: seq<nat>, bs: nat, numBlocks: nat)
    requires bs > 0
  {
    && |lens| == |tables| > 0
    && MaxOf(Lengths(tables)) > 0
    && (forall s :: 0 <= s < |lens| ==> lens[s] > 0)
    && forall s :: 0 <= s < |lens| ==> PackedRowOk(tables[s], lens[s], bs, numBlocks)
  }

  function PackedMetadata(tables: seq<seq<nat>>, lens: seq<nat>, bs: nat): Metadata
    requires bs > 0 && |tables| == |lens|
  {
    Metadata(Flatten(PackedRows(tables, lens, bs)), PadTables(tables, MaxOf(Lengths(tables))), lens, MaxOf(lens),
             true, Some(lens), Some(Cumulative(lens)))
  }

  ghost predicate DecodeBatchOk(tables: seq<seq<nat>>, promptLens: seq<nat>) {
    |promptLens| == |tables| > 0 && MaxOf(Lengths(tables)) > 0
  }

  ghost predicate DecodeRowOk(table: seq<nat>, promptLen: nat, bs: nat, numBlocks: nat, step: nat)
    requires bs > 0
  {
    promptLen + step + 1 <= numBlocks * bs && SlotExists(table, bs, numBlocks, promptLen + step)
  }

  ghost predicate DecodeStepOk(tables: seq<seq<nat>>, promptLens: seq<nat>, bs: nat, numBlocks: nat, step: nat)
    requires bs > 0
  {
    |promptLens| == |tables| && forall s :: 0 <= s < |tables| ==>
      DecodeRowOk(tables[s], promptLens[s], bs, numBlocks, step)
  }

  function DecodeSlots(tables: seq<seq<nat>>, promptLens: seq<nat>, bs: nat, step: nat): (slots: seq<int>)
    requires bs > 0 && |tables| == |promptLens|
    ensures |slots| == |tables|
  {
    seq(|tables|, s requires 0 <= s < |tables| => LookupSlot(tables[s], bs, promptLens[s] + step))
  }

  function DecodeContexts(promptLens: seq<nat>, step: nat): (contexts: seq<nat>)
    ensures |contexts| == |promptLens|
  {
    seq(|promptLens|, s requires 0 <= s < |promptLens| => promptLens[s] + step + 1)
  }

  function DecodeMetadata(tables: seq<seq<nat>>, promptLens: seq<nat>, bs: nat, step: nat): Metadata
    requires bs > 0 && |tables| == |promptLens|
  {
    Metadata(DecodeSlots(tables, promptLens, bs, step), PadTables(tables, MaxOf(Lengths(tables))),
             DecodeContexts(promptLens, step), MaxOf(DecodeContexts(promptLens, step)), false, None, None)
  }

  /** The longest context is one of the contexts, and the queries of a prefill are its contexts, cut apart by their
      cumulative lengths; a prefill is causal only if no row is padded, and a decode step needs no query lengths. */
  lemma MetadataMeans(tables: seq<seq<nat>>, masks: seq<seq<nat>>, lens: seq<nat>, bs: nat, step: nat)
    requires bs > 0 && |tables| == |masks| == |lens| > 0 && forall s :: 0 <= s < |masks| ==> |masks[s]| == |masks[0]|
    ensures var m := PaddedMetadata(tables, masks, bs);
            && LongestContext(m) && m.queryLens == Some(m.contextLens) && m.cuSeqlens == Some(Cumulative(m.contextLens))
            && (m.prefillCausalOnly <==> forall s, p :: 0 <= s < |masks| && 0 <= p < |masks[s]| ==> masks[s][p] != 0)
    ensures var m := PackedMetadata(tables, lens, bs);
            && LongestContext(m) && m.queryLens == Some(lens) && m.cuSeqlens == Some(Cumulative(lens))
            && m.prefillCausalOnly
    ensures var m := DecodeMetadata(tables, lens, bs, step);
            LongestContext(m) && m.queryLens == None && m.cuSeqlens == None && !m.prefillCausalOnly
  {
    hide MaskLen, MaskedRows, PackedRows, DecodeSlots, PadTables, Flatten, Cumulative, MaxOf;
    MaxOfIsMax(MaskLens(masks));
    MaxOfIsMax(lens);
    MaxOfIsMax(DecodeContexts(lens, step));
    forall s | 0 <= s < |masks|
      ensures MaskLens(masks)[s] == |masks[0]| <==> forall p :: 0 <= p < |masks[s]| ==> masks[s][p] != 0
    {
      FullMask(masks[s]);
    }
  }

  ghost predicate LongestContext(m: Metadata) {
    m.maxContextLen in m.contextLens && forall s :: 0 <= s < |m.contextLens| ==> m.contextLens[s] <= m.maxContextLen
  }

  lemma {:induction false} FullMask(mask: seq<nat>)
    ensures MaskLen(mask) == |mask| <==> forall p :: 0 <= p < |mask| ==> mask[p] != 0
  {
    if mask != [] {
      FullMask(mask[..|mask| - 1]);
      assert forall p :: 0 <= p < |mask| - 1 ==> mask[..|mask| - 1][p] == mask[p];
    }
  }

  // ----- the builders agree

  ghost predicate RightPadded(mask: seq<nat>) {
    forall p, q :: 0 <= p < q < |mask| && mask[q] != 0 ==> mask[p] != 0
  }

  lemma {:induction false} RightPaddedMask(mask: seq<nat>)
    requires RightPadded(mask)
    ensures forall p :: 0 <= p < |mask| ==> (mask[p] != 0 <==> p < MaskLen(mask))
  {
    if mask != [] {
      var k := |mask| - 1;
      RightPaddedMask(mask[..k]);
      if mask[k] != 0 {
        forall p | 0 <= p < k
          ensures mask[..k][p] != 0
        {
        }
        if MaskLen(mask[..k]) < k {
          assert mask[..k][MaskLen(mask[..k])] != 0;
        }
      }
    }
  }

  function Unpadded(slots: seq<int>): seq<int> {
    if slots == [] then [] else
      var k := |slots| - 1;
      Unpadded(slots[..k]) + (if slots[k] == PAD_SLOT_ID then [] else [slots[k]])
  }

  lemma {:induction false} UnpaddedConcat(a: seq<int>, b: seq<int>)
    ensures Unpadded(a + b) == Unpadded(a) + Unpadded(b)
  {
    if b == [] {
      assert a + b == a;
    } else {
      var k := |b| - 1;
      UnpaddedConcat(a, b[..k]);
      assert (a + b)[..|a + b| - 1] == a + b[..k];
    }
  }

  lemma {:induction false} UnpaddedRow(table: seq<nat>, mask: seq<nat>, bs: nat, k: nat)
    requires bs > 0 && RightPadded(mask) && k <= |mask|
    requires forall p :: 0 <= p < MaskLen(mask) ==> p / bs < |table|
    ensures Unpadded(MaskedRow(table, mask, bs)[..k]) == PackedRow(table, MaskLen(mask), bs)[..Min(k, MaskLen(mask))]
  {
    RightPaddedMask(mask);
    if k > 0 {
      UnpaddedRow(table, mask, bs, k - 1);
      var row := MaskedRow(table, mask, bs);
      assert row[..k][..k - 1] == row[..k - 1];
    }
  }

  lemma {:induction false} UnpaddedRows(tables: seq<seq<nat>>, masks: seq<seq<nat>>, bs: nat, k: nat)
    requires bs > 0 && |tables| == |masks| && k <= |tables|
    requires forall s :: 0 <= s < |masks| ==> RightPadded(masks[s])
    requires forall s :: 0 <= s < |masks| ==> forall p :: 0 <= p < MaskLen(masks[s]) ==> p / bs < |tables[s]|
    ensures Unpadded(Flatten(MaskedRows(tables, masks, bs)[..k])) ==
              Flatten(PackedRows(tables, MaskLens(masks), bs)[..k])
  {
    hide Flatten, Unpadded, MaskedRow, PackedRow, MaskLen;
    if k > 0 {
      UnpaddedRows(tables, masks, bs, k - 1);
      var padded, packed := MaskedRows(tables, masks, bs), PackedRows(tables, MaskLens(masks), bs);
      FlattenPrefix(padded, k - 1);
      FlattenPrefix(packed, k - 1);
      UnpaddedConcat(Flatten(padded[..k - 1]), padded[k - 1]);
      WholeRowUnpadded(tables[k - 1], masks[k - 1], bs);
    } else {
      NoRows(tables, masks, bs);
    }
  }

  lemma WholeRowUnpadded(table: seq<nat>, mask: seq<nat>, bs: nat)
    requires bs > 0 && RightPadded(mask) && forall p :: 0 <= p < MaskLen(mask) ==> p / bs < |table|
    ensures Unpadded(MaskedRow(table, mask, bs)) == PackedRow(table, MaskLen(mask), bs)
  {
    hide Unpadded;
    UnpaddedRow(table, mask, bs, |mask|);
    assert MaskedRow(table, mask, bs)[..|mask|] == MaskedRow(table, mask, bs);
  }

  lemma NoRows(tables: seq<seq<nat>>, masks: seq<seq<nat>>, bs: nat)
    requires bs > 0 && |tables| == |masks|
    ensures Unpadded(Flatten(MaskedRows(tables, masks, bs)[..0])) ==
              Flatten(PackedRows(tables, MaskLens(masks), bs)[..0])
  {
  }

  lemma RowsSucceedTogether(table: seq<nat>, mask: seq<nat>, bs: nat, numBlocks: nat)
    requires bs > 0 && RightPadded(mask)
    ensures MaskedRowOk(table, mask, bs, numBlocks) <==> PackedRowOk(table, MaskLen(mask), bs, numBlocks)
  {
    RightPaddedMask(mask);
    hide SlotExists;
  }

  /** For right-padded, non-empty prompts the two prefill layouts are the same metadata up to the
      padding: both builders succeed together, and dropping the padded slots gives the packed ones. */
  lemma PaddedAgreesWithPacked(tables: seq<seq<nat>>, masks: seq<seq<nat>>, bs: nat, numBlocks: nat)
    requires bs > 0 && masks != [] && |masks[0]| > 0
    requires forall s :: 0 <= s < |masks| ==> |masks[s]| == |masks[0]| && RightPadded(masks[s]) && MaskLen(masks[s]) > 0
    ensures PaddedOk(tables, masks, bs, numBlocks) <==> PackedOk(tables, MaskLens(masks), bs, numBlocks)
    ensures PaddedOk(tables, masks, bs, numBlocks) ==>
              var padded, packed := PaddedMetadata(tables, masks, bs), PackedMetadata(tables, MaskLens(masks), bs);
              && Unpadded(padded.slotMapping) == packed.slotMapping
              && padded.(slotMapping := packed.slotMapping, prefillCausalOnly := true) == packed
  {
    hide SlotOf, LookupSlot;
    if |tables| == |masks| {
      forall s | 0 <= s < |masks|
        ensures MaskedRowOk(tables[s], masks[s], bs, numBlocks) <==>
                  PackedRowOk(tables[s], MaskLens(masks)[s], bs, numBlocks)
      {
        RowsSucceedTogether(tables[s], masks[s], bs, numBlocks);
      }
    }
    if PackedOk(tables, MaskLens(masks), bs, numBlocks) {
      forall s | 0 <= s < |masks|
        ensures forall p :: 0 <= p < MaskLen(masks[s]) ==> p / bs < |tables[s]|
      {
        PackedRowCovered(tables[s], MaskLens(masks)[s], bs, numBlocks);
      }
      UnpaddedRows(tables, masks, bs, |masks|);
      assert MaskedRows(tables, masks, bs)[..|masks|] == MaskedRows(tables, masks, bs);
      assert PackedRows(tables, MaskLens(masks), bs)[..|masks|] == PackedRows(tables, MaskLens(masks), bs);
    }
  }

  /** The one-step builder goes through all earlier steps, but with tables from the allocator it
      fails only if its own step does: reaching a position includes reaching the earlier ones. */
  lemma EarlierStepsSucceed(tables: seq<seq<nat>>, promptLens: seq<nat>, bs: nat, numBlocks: nat, step: nat)
    requires bs > 0 && forall s :: 0 <= s < |tables| ==> InPool(tables[s], numBlocks)
    ensures (DecodeBatchOk(tables, promptLens) && forall k :: 0 <= k <= step ==>
             DecodeStepOk(tables, promptLens, bs, numBlocks, k))
       <==> tables != [] && DecodeStepOk(tables, promptLens, bs, numBlocks, step)
  {
    hide SlotExists;
    if tables != [] && DecodeStepOk(tables, promptLens, bs, numBlocks, step) {
      forall k | 0 <= k <= step
        ensures DecodeStepOk(tables, promptLens, bs, numBlocks, k)
      {
        forall s | 0 <= s < |tables|
          ensures DecodeRowOk(tables[s], promptLens[s], bs, numBlocks, k)
        {
          EarlierPositionReached(tables[s], promptLens[s], bs, numBlocks, step, k);
        }
      }
      EarlierPositionReached(tables[0], promptLens[0], bs, numBlocks, step, step);
      assert Lengths(tables)[0] == |tables[0]|;
      MaxOfIsMax(Lengths(tables));
    }
  }

  lemma EarlierPositionReached(table: seq<nat>, promptLen: nat, bs: nat, numBlocks: nat, step: nat, k: nat)
    requires bs > 0 && InPool(table, numBlocks) && k <= step
    requires DecodeRowOk(table, promptLen, bs, numBlocks, step)
    ensures DecodeRowOk(table, promptLen, bs, numBlocks, k)
    ensures |table| > 0
  {
    DivMonotone(promptLen + k, promptLen + step, bs);
    assert table[(promptLen + k) / bs] in table;
  }

  lemma DivMonotone(p: nat, q: nat, b: nat)
    requires b > 0 && p <= q
    ensures p / b <= q / b
  {
    assert p == (p / b) * b + p % b;
    assert q == (q / b) * b + q % b;
    if p / b > q / b {
      MulMonotone(q / b + 1, p / b, b);
    }
  }
}
