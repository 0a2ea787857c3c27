/** A decode batch padded to a captured shape: the real rows compute what they compute unpadded, and the cache
    differs in one slot of the padding block at most. */
module CudaPadding {
  import opened Prelude
  import opened Decoding
  import opened BlockPool
  import opened SlotMapping
  import opened PagedKvCache
  import opened PagedCacheRuntime
  import opened DecodeStep
  import opened CudaGraphs

  /** The inputs of a single-token forward pass: one token, position and metadata row per sequence. */
  datatype DecodeBatch = DecodeBatch(inputIds: seq<Token>, positionIds: seq<nat>, metadata: Metadata)

  /** All rows are there, and the block tables are `cols` wide. */
  ghost predicate Rectangular(b: DecodeBatch, cols: nat) {
    && |b.inputIds| == |b.positionIds| == |b.metadata.slotMapping| == |b.metadata.contextLens| ==
      |b.metadata.blockTables|
    && (forall r :: 0 <= r < |b.inputIds| ==> |b.metadata.blockTables[r]| == cols)
    && forall r :: 0 <= r < |b.inputIds| ==> b.metadata.contextLens[r] > 0
  }

  /** Repeat the last column. */
  function PadBlockTableCols(table: seq<nat>, cols: nat): (r: seq<nat>)
    requires |table| <= cols
    ensures |r| == cols && table <= r
  {
    table + seq(cols - |table|, _ => if table == [] then 0 else table[|table| - 1])
  }

  function PadWith<T>(s: seq<T>, n: nat, filler: T): (r: seq<T>)
    requires |s| <= n
    ensures |r| == n && s <= r && forall i :: |s| <= i < n ==> r[i] == filler
  {
    s + seq(n - |s|, _ => filler)
  }

  function PadMetadataBlockTables(m: Metadata, metaCols: nat, cols: nat): Metadata
    requires metaCols <= cols && forall r :: 0 <= r < |m.blockTables| ==> |m.blockTables[r]| == metaCols
  {
    m.(blockTables :=
       seq(|m.blockTables|, r requires 0 <= r < |m.blockTables| => PadBlockTableCols(m.blockTables[r], cols)))
  }

  function PadDecodeBatchToMax(maxBatch: nat, b: DecodeBatch, metaCols: nat, cols: nat): (r: Outcome<DecodeBatch>)
    requires forall i :: 0 <= i < |b.metadata.blockTables| ==> |b.metadata.blockTables[i]| == metaCols
  {
    var actual := |b.inputIds|;
    if actual == 0 || actual > maxBatch then Err("actual batch exceeds cuda graph max batch")
    else if metaCols > cols then Err("cannot pad block tables down")
    else
      var m := PadMetadataBlockTables(b.metadata, metaCols, cols);
      if actual == maxBatch then Ok(b.(metadata := m))
      else if |b.positionIds| != actual || |m.slotMapping| != actual || |m.contextLens| != actual ||
        |m.blockTables| != actual then Err("mismatched rows")
      else Ok(DecodeBatch(PadWith(b.inputIds, maxBatch, 0), PadWith(b.positionIds, maxBatch, 0),
                Metadata(PadWith(m.slotMapping, maxBatch, 0), PadWith(m.blockTables, maxBatch, PadWith([], cols, 0)),
                         PadWith(m.contextLens, maxBatch, 1), m.maxContextLen, false, None, None)))
  }

  // ----- the forward pass of a batch

  ghost function RowsOf(b: DecodeBatch, cols: nat): (rows: seq<Row>)
    requires Rectangular(b, cols)
    ensures |rows| == |b.inputIds| && forall row :: row in rows ==> WellShaped(row)
  {
    seq(|b.inputIds|, r requires 0 <= r < |b.inputIds| =>
      Row(b.metadata.blockTables[r], b.metadata.contextLens[r] - 1, [Embedding(b.inputIds[r])], [b.positionIds[r]],
          [b.metadata.slotMapping[r]]))
  }

  ghost function Stored(net: Network, kv: seq<Kv>, bs: nat, b: DecodeBatch, cols: nat): seq<Kv>
    requires bs > 0 && Rectangular(b, cols)
  {
    WriteRows(net, kv, bs, RowsOf(b, cols), |b.inputIds|)
  }

  /** Every row reads only blocks other than the padding block. */
  ghost predicate AvoidsPadding(b: DecodeBatch, bs: nat)
    requires bs > 0
  {
    forall r :: 0 <= r < |b.metadata.contextLens| && r < |b.metadata.blockTables| ==>
      OwnTable(b.metadata.blockTables[r], bs, b.metadata.contextLens[r])
  }

  ghost predicate OwnTable(table: seq<nat>, bs: nat, n: nat)
    requires bs > 0
  {
    Covers(table, bs, n) && forall i: nat :: i < n && i / bs < |table| ==> table[i / bs] >= 1
  }

  /** The two memories agree except in slot 0, which lies in the padding block. */
  ghost predicate SameButPadding(kv: seq<Kv>, kv': seq<Kv>) {
    |kv| == |kv'| && forall i :: 0 < i < |kv| ==> kv[i] == kv'[i]
  }

  lemma ReadIgnoresPadding(net: Network, kv: seq<Kv>, kv': seq<Kv>, table: seq<nat>, bs: nat, n: nat)
    requires bs > 0 && SameButPadding(kv, kv') && OwnTable(table, bs, n)
    ensures Read(net, kv, table, bs, n) == Read(net, kv', table, bs, n)
  {
    forall i: nat | i < n
      ensures Fetch(net, kv, table, bs, i) == Fetch(net, kv', table, bs, i)
    {
      if i / bs < |table| {
        MulMonotone(1, table[i / bs], bs);
      }
    }
  }

  lemma SingleRow(net: Network, kv: seq<Kv>, bs: nat, row: Row)
    requires bs > 0 && WellShaped(row) && |row.items| == 1
    ensures WriteRow(net, kv, bs, row, 1) ==
            if 0 <= row.slots[0] < |kv|
              then kv[row.slots[0] :=
                      net.entry(Read(net, kv, row.table, bs, row.start), row.items[0], row.positions[0])] else kv
  {
    assert WriteRow(net, kv, bs, row, 0) == kv;
  }

  ghost predicate PaddedTo(b: DecodeBatch, p: DecodeBatch, maxBatch: nat, metaCols: nat, cols: nat) {
    Rectangular(b, metaCols) && Rectangular(p, cols) && PadDecodeBatchToMax(maxBatch, b, metaCols, cols) == Ok(p)
  }

  lemma PaddedShape(b: DecodeBatch, p: DecodeBatch, maxBatch: nat, metaCols: nat, cols: nat)
    requires Rectangular(b, metaCols) && PadDecodeBatchToMax(maxBatch, b, metaCols, cols) == Ok(p)
    ensures PaddedTo(b, p, maxBatch, metaCols, cols) && 0 < |b.inputIds| <= |p.inputIds| == maxBatch
    ensures forall r :: 0 <= r < |b.inputIds| ==>
              && RowsOf(p, cols)[r] ==
                RowsOf(b, metaCols)[r].(table := PadBlockTableCols(b.metadata.blockTables[r], cols))
              && p.metadata.contextLens[r] == b.metadata.contextLens[r]
              && p.metadata.blockTables[r] == PadBlockTableCols(b.metadata.blockTables[r], cols)
    ensures forall r :: |b.inputIds| <= r < maxBatch ==> RowsOf(p, cols)[r].slots == [0]
  {
  }

  /** Up to the last real row the padded batch stores exactly what the real one does. */
  lemma {:induction false} RealRowsAlike(net: Network, kv: seq<Kv>, bs: nat, b: DecodeBatch, p: DecodeBatch,
                                         maxBatch: nat, metaCols: nat, cols: nat, k: nat)
    requires bs > 0 && PaddedTo(b, p, maxBatch, metaCols, cols) && AvoidsPadding(b, bs)
    requires k <= |b.inputIds| <= |p.inputIds|
    ensures WriteRows(net, kv, bs, RowsOf(p, cols), k) == WriteRows(net, kv, bs, RowsOf(b, metaCols), k)
  {
    hide Rectangular, PadDecodeBatchToMax, AvoidsPadding, WriteRow, Read, RowsOf;
    if k > 0 {
      RealRowsAlike(net, kv, bs, b, p, maxBatch, metaCols, cols, k - 1);
      var kv' := WriteRows(net, kv, bs, RowsOf(b, metaCols), k - 1);
      OneRealRow(net, kv', bs, b, p, maxBatch, metaCols, cols, k - 1);
    }
  }

  lemma OneRealRow(net: Network, kv: seq<Kv>, bs: nat, b: DecodeBatch, p: DecodeBatch, maxBatch: nat, metaCols: nat,
                   cols: nat, r: nat)
    requires bs > 0 && PaddedTo(b, p, maxBatch, metaCols, cols) && AvoidsPadding(b, bs)
    requires r < |b.inputIds| <= |p.inputIds|
    ensures |RowsOf(b, metaCols)[r].items| == |RowsOf(p, cols)[r].items| == 1
    ensures RowsOf(b, metaCols)[r] in RowsOf(b, metaCols) && RowsOf(p, cols)[r] in RowsOf(p, cols)
    ensures WriteRow(net, kv, bs, RowsOf(p, cols)[r], 1) == WriteRow(net, kv, bs, RowsOf(b, metaCols)[r], 1)
  {
    hide PadDecodeBatchToMax, WriteRow, Read;
    PaddedShape(b, p, maxBatch, metaCols, cols);
    var (row, table) := (RowsOf(b, metaCols)[r], b.metadata.blockTables[r]);
    assert OwnTable(table, bs, b.metadata.contextLens[r]);
    ReadThroughPrefix(net, kv, table, PadBlockTableCols(table, cols), bs, row.start);
    SingleRow(net, kv, bs, row);
    SingleRow(net, kv, bs, RowsOf(p, cols)[r]);
  }

  /** The rows added by the padding write nowhere else than slot 0. */
  lemma {:induction false} DummyRowsAlike(net: Network, kv: seq<Kv>, bs: nat, b: DecodeBatch, p: DecodeBatch,
                                          maxBatch: nat, metaCols: nat, cols: nat, k: nat)
    requires bs > 0 && PaddedTo(b, p, maxBatch, metaCols, cols) && |b.inputIds| <= k <= |p.inputIds| == maxBatch
    ensures SameButPadding(WriteRows(net, kv, bs, RowsOf(p, cols), |b.inputIds|),
                           WriteRows(net, kv, bs, RowsOf(p, cols), k))
  {
    hide PadDecodeBatchToMax, WriteRow, Read, Rectangular, RowsOf;
    if k > |b.inputIds| {
      DummyRowsAlike(net, kv, bs, b, p, maxBatch, metaCols, cols, k - 1);
      PaddedShape(b, p, maxBatch, metaCols, cols);
      SingleRow(net, WriteRows(net, kv, bs, RowsOf(p, cols), k - 1), bs, RowsOf(p, cols)[k - 1]);
    }
  }

  /** Replaying a captured graph on the padded batch: the real rows choose the tokens they choose unpadded, and
      the memory is the same except in slot 0. */
  lemma PaddedReplay(net: Network, kv: seq<Kv>, bs: nat, b: DecodeBatch, p: DecodeBatch, maxBatch: nat, metaCols: nat,
                     cols: nat)
    requires bs > 0 && Rectangular(b, metaCols) && AvoidsPadding(b, bs)
    requires PadDecodeBatchToMax(maxBatch, b, metaCols, cols) == Ok(p)
    ensures Rectangular(p, cols) && |p.inputIds| == maxBatch >= |b.inputIds|
    ensures SameButPadding(Stored(net, kv, bs, b, metaCols), Stored(net, kv, bs, p, cols))
    ensures NextIds(net, Stored(net, kv, bs, p, cols), bs, p.metadata)[..|b.inputIds|] ==
              NextIds(net, Stored(net, kv, bs, b, metaCols), bs, b.metadata)
  {
    hide PadDecodeBatchToMax, WriteRow, Read, WriteRows, RowsOf;
    PaddedShape(b, p, maxBatch, metaCols, cols);
    RealRowsAlike(net, kv, bs, b, p, maxBatch, metaCols, cols, |b.inputIds|);
    DummyRowsAlike(net, kv, bs, b, p, maxBatch, metaCols, cols, maxBatch);
    var (raw, padded) := (Stored(net, kv, bs, b, metaCols), Stored(net, kv, bs, p, cols));
    forall r | 0 <= r < |b.inputIds|
      ensures Read(net, padded, p.metadata.blockTables[r], bs, p.metadata.contextLens[r]) ==
                Read(net, raw, b.metadata.blockTables[r], bs, b.metadata.contextLens[r])
    {
      var table := b.metadata.blockTables[r];
      assert OwnTable(table, bs, b.metadata.contextLens[r]);
      ReadThroughPrefix(net, padded, table, PadBlockTableCols(table, cols), bs, b.metadata.contextLens[r]);
      ReadIgnoresPadding(net, raw, padded, table, bs, b.metadata.contextLens[r]);
    }
  }

  // ----- the engine's decode batches

  function Width(p: Pool, ids: seq<nat>): nat {
    MaxOf(Lengths(Tables(p, ids)))
  }

  /** The inputs the engine builds for its active slots, with block tables of `cols` columns: as wide as the
      longest table, or wider when graphs are captured. */
  ghost function EngineBatch(p: Pool, slots: seq<DecodeSlot>, active: seq<nat>, step: nat, toks: seq<Token>,
                             cols: nat): DecodeBatch
    requires p.blockSize > 0 && Indexes(active, |slots|)
  {
    var tables := Tables(p, Ids(slots, active));
    DecodeBatch(toks, seq(|active|, r requires 0 <= r < |active| => slots[active[r]].promptLen + step),
                DecodeMetadata(tables, PromptLens(slots, active), p.blockSize,
                               step).(blockTables := PadTables(tables, cols)))
  }

  lemma TableWidth(tables: seq<seq<nat>>, cols: nat)
    requires cols >= MaxOf(Lengths(tables))
    ensures forall r :: 0 <= r < |tables| ==> |PadTables(tables, cols)[r]| == cols
    ensures forall r :: 0 <= r < |tables| ==> PadTables(tables, MaxOf(Lengths(tables)))[r] <= PadTables(tables, cols)[r]
  {
    MaxOfIsMax(Lengths(tables));
    forall r | 0 <= r < |tables|
      ensures |PadTables(tables, cols)[r]| == cols && |tables[r]| <= MaxOf(Lengths(tables))
    {
      assert Lengths(tables)[r] <= MaxOf(Lengths(tables));
    }
  }

  lemma EngineBatchFits(p: Pool, numBlocks: nat, slots: seq<DecodeSlot>, active: seq<nat>, step: nat, toks: seq<Token>,
                        cols: nat)
    requires p.blockSize > 0 && Valid(p, numBlocks) && Indexes(active, |slots|) && |toks| == |active|
    requires cols >= Width(p, Ids(slots, active))
    requires DecodeStepOk(Tables(p, Ids(slots, active)), PromptLens(slots, active), p.blockSize, numBlocks, step)
    ensures Rectangular(EngineBatch(p, slots, active, step, toks, cols), cols)
    ensures AvoidsPadding(EngineBatch(p, slots, active, step, toks, cols), p.blockSize)
  {
    hide DecodeStepOk, OwnTable, BlockPool.Valid, LookupSlot;
    var (bs, tables, lens) := (p.blockSize, Tables(p, Ids(slots, active)), PromptLens(slots, active));
    TableWidth(tables, cols);
    forall r | 0 <= r < |active|
      ensures OwnTable(PadTable(tables[r], cols), bs, lens[r] + step + 1)
    {
      OwnRow(p, numBlocks, slots, active, step, cols, r);
    }
  }

  lemma OwnRow(p: Pool, numBlocks: nat, slots: seq<DecodeSlot>, active: seq<nat>, step: nat, cols: nat, r: nat)
    requires p.blockSize > 0 && Valid(p, numBlocks) && Indexes(active, |slots|) && r < |active|
    requires DecodeStepOk(Tables(p, Ids(slots, active)), PromptLens(slots, active), p.blockSize, numBlocks, step)
    ensures OwnTable(PadTable(Table(p, slots[active[r]].requestId), cols), p.blockSize,
                     slots[active[r]].promptLen + step + 1)
  {
    var (table, len) := (Table(p, slots[active[r]].requestId), slots[active[r]].promptLen);
    assert DecodeRowOk(Tables(p, Ids(slots, active))[r], PromptLens(slots, active)[r], p.blockSize, numBlocks, step);
    hide DecodeStepOk, OwnTable, BlockPool.Valid;
    CoveredBlock(table, p.blockSize, len + step);
    OwnPrefix(p, numBlocks, slots[active[r]].requestId, PadTable(table, cols), len + step + 1);
  }

  /** A request's table, also when filled up, is its own as far as it covers. */
  lemma OwnPrefix(p: Pool, numBlocks: nat, id: nat, table: seq<nat>, n: nat)
    requires Valid(p, numBlocks) && Table(p, id) <= table && Covers(Table(p, id), p.blockSize, n)
    ensures OwnTable(table, p.blockSize, n)
  {
    TableInPool(p, id, numBlocks);
    CoversMonotone(Table(p, id), table, p.blockSize, n);
    forall i: nat | i < n && i / p.blockSize < |table|
      ensures table[i / p.blockSize] >= 1
    {
      CoveredBlock(Table(p, id), p.blockSize, i);
      assert table[i / p.blockSize] in Table(p, id);
    }
  }

  // ----- bucketed columns

  /** The same single-token rows, read through longer tables. */
  ghost predicate WiderRows(a: seq<Row>, b: seq<Row>, bs: nat)
    requires bs > 0
  {
    && |a| == |b|
    && (forall r :: 0 <= r < |a| ==> WellShaped(a[r]) && WellShaped(b[r]))
    && forall r ::
         0 <= r < |a| ==>
           |a[r].items| == 1 && b[r] == a[r].(table := b[r].table) && a[r].table <= b[r].table &&
             Covers(a[r].table, bs, a[r].start)
  }

  lemma {:induction false} WiderWrites(net: Network, kv: seq<Kv>, bs: nat, a: seq<Row>, b: seq<Row>, k: nat)
    requires bs > 0 && WiderRows(a, b, bs) && k <= |a|
    ensures WriteRows(net, kv, bs, a, k) == WriteRows(net, kv, bs, b, k)
  {
    hide WriteRow, Read;
    if k > 0 {
      WiderWrites(net, kv, bs, a, b, k - 1);
      var kv' := WriteRows(net, kv, bs, a, k - 1);
      SingleRow(net, kv', bs, a[k - 1]);
      SingleRow(net, kv', bs, b[k - 1]);
      ReadThroughPrefix(net, kv', a[k - 1].table, b[k - 1].table, bs, a[k - 1].start);
    }
  }

  /** Whatever the width of the block tables, the forward pass is the same. */
  lemma WideForward(net: Network, p: Pool, numBlocks: nat, kv: seq<Kv>, slots: seq<DecodeSlot>, active: seq<nat>,
                    step: nat, toks: seq<Token>, cols: nat)
    requires p.blockSize > 0 && Valid(p, numBlocks) && Indexes(active, |slots|) && |toks| == |active|
    requires cols >= Width(p, Ids(slots, active))
    requires DecodeStepOk(Tables(p, Ids(slots, active)), PromptLens(slots, active), p.blockSize, numBlocks, step)
    ensures Rectangular(EngineBatch(p, slots, active, step, toks, cols), cols)
    ensures var b := EngineBatch(p, slots, active, step, toks, cols);
            var after := Stored(net, kv, p.blockSize, b, cols);
            (after, NextIds(net, after, p.blockSize, b.metadata)) ==
              ForwardActive(net, p, kv, slots, active, step, toks)
  {
    hide WriteRow, Read, WriteRows, Covers, Rectangular, AvoidsPadding, WiderRows, RowsOf, DecodeRows, DecodeStepOk,
         DecodeMetadata, BlockPool.Valid;
    var (bs, tables, lens) := (p.blockSize, Tables(p, Ids(slots, active)), PromptLens(slots, active));
    EngineBatchFits(p, numBlocks, slots, active, step, toks, cols);
    EngineTokens(p, slots, active, step, toks, cols);
    DecodeShape(tables, lens, bs, step);
    EngineRows(p, numBlocks, slots, active, step, toks, cols);
    var m := DecodeMetadata(tables, lens, bs, step);
    var b := EngineBatch(p, slots, active, step, toks, cols);
    var (narrow, wide) := (DecodeRows(m, lens, step, toks), RowsOf(b, cols));
    WiderWrites(net, kv, bs, narrow, wide, |active|);
    var after := WriteRows(net, kv, bs, narrow, |active|);
    forall r | 0 <= r < |active|
      ensures b.metadata.contextLens[r] == m.contextLens[r]
      ensures Read(net, after, m.blockTables[r], bs, m.contextLens[r]) ==
                Read(net, after, b.metadata.blockTables[r], bs, m.contextLens[r])
    {
      EngineRow(p, numBlocks, slots, active, step, toks, cols, r);
      ReadThroughPrefix(net, after, m.blockTables[r], b.metadata.blockTables[r], bs, m.contextLens[r]);
    }
    assert NextIds(net, after, bs, b.metadata) == NextIds(net, after, bs, m);
  }

  lemma DecodeShape(tables: seq<seq<nat>>, lens: seq<nat>, bs: nat, step: nat)
    requires bs > 0 && |tables| == |lens|
    ensures var m := DecodeMetadata(tables, lens, bs, step);
            && |m.slotMapping| == |m.blockTables| == |m.contextLens| == |lens|
            && forall r :: 0 <= r < |lens| ==> m.contextLens[r] > 0
  {
  }

  /** One row of the engine's batch, with narrow and with wide tables. */
  lemma EngineRow(p: Pool, numBlocks: nat, slots: seq<DecodeSlot>, active: seq<nat>, step: nat, toks: seq<Token>,
                  cols: nat, r: nat)
    requires p.blockSize > 0 && Valid(p, numBlocks) && Indexes(active, |slots|) && |toks| == |active|
    requires cols >= Width(p, Ids(slots, active)) && r < |active|
    requires DecodeStepOk(Tables(p, Ids(slots, active)), PromptLens(slots, active), p.blockSize, numBlocks, step)
    ensures var m, b := DecodeMetadata(Tables(p, Ids(slots, active)), PromptLens(slots, active), p.blockSize,
                                       step), EngineBatch(p, slots, active, step, toks, cols);
            && m.blockTables[r] <= b.metadata.blockTables[r] && b.metadata.slotMapping[r] == m.slotMapping[r]
            && b.metadata.contextLens[r] == m.contextLens[r] == PromptLens(slots, active)[r] + step + 1
            && b.positionIds[r] == PromptLens(slots, active)[r] + step
            && Covers(m.blockTables[r], p.blockSize, m.contextLens[r])
  {
    var (bs, tables, lens) := (p.blockSize, Tables(p, Ids(slots, active)), PromptLens(slots, active));
    EngineRowCovers(tables, lens, bs, numBlocks, step, MaxOf(Lengths(tables)), r);
    hide DecodeStepOk, Covers, BlockPool.Valid, LookupSlot;
    TableWidth(tables, cols);
  }

  lemma EngineRows(p: Pool, numBlocks: nat, slots: seq<DecodeSlot>, active: seq<nat>, step: nat, toks: seq<Token>,
                   cols: nat)
    requires p.blockSize > 0 && Valid(p, numBlocks) && Indexes(active, |slots|) && |toks| == |active|
    requires cols >= Width(p, Ids(slots, active))
    requires DecodeStepOk(Tables(p, Ids(slots, active)), PromptLens(slots, active), p.blockSize, numBlocks, step)
    requires Rectangular(EngineBatch(p, slots, active, step, toks, cols), cols)
    requires var m := DecodeMetadata(Tables(p, Ids(slots, active)), PromptLens(slots, active), p.blockSize, step);
             && |m.slotMapping| == |m.blockTables| == |m.contextLens| == |toks|
             && forall r :: 0 <= r < |m.contextLens| ==> m.contextLens[r] > 0
    ensures var m := DecodeMetadata(Tables(p, Ids(slots, active)), PromptLens(slots, active), p.blockSize, step);
            WiderRows(DecodeRows(m, PromptLens(slots, active), step, toks),
                      RowsOf(EngineBatch(p, slots, active, step, toks, cols), cols), p.blockSize)
  {
    hide DecodeStepOk, Covers, BlockPool.Valid, EngineBatch, DecodeMetadata;
    var m, b := DecodeMetadata(Tables(p, Ids(slots, active)), PromptLens(slots, active), p.blockSize,
                               step), EngineBatch(p, slots, active, step, toks, cols);
    EngineTokens(p, slots, active, step, toks, cols);
    forall r | 0 <= r < |active|
      ensures m.blockTables[r] <= b.metadata.blockTables[r] && b.metadata.slotMapping[r] == m.slotMapping[r]
      ensures b.metadata.contextLens[r] == m.contextLens[r] && b.positionIds[r] == PromptLens(slots, active)[r] + step
      ensures b.inputIds == toks
      ensures Covers(m.blockTables[r], p.blockSize, m.contextLens[r] - 1)
    {
      EngineRow(p, numBlocks, slots, active, step, toks, cols, r);
      CoversLess(m.blockTables[r], p.blockSize, m.contextLens[r] - 1);
    }
  }

  lemma EngineTokens(p: Pool, slots: seq<DecodeSlot>, active: seq<nat>, step: nat, toks: seq<Token>, cols: nat)
    requires p.blockSize > 0 && Indexes(active, |slots|)
    ensures var b := EngineBatch(p, slots, active, step, toks, cols);
            b.inputIds == toks &&
              |b.positionIds| == |b.metadata.blockTables| == |b.metadata.slotMapping| == |b.metadata.contextLens| ==
                |active|
  {
  }

  lemma CoversLess(table: seq<nat>, bs: nat, n: nat)
    requires bs > 0 && Covers(table, bs, n + 1)
    ensures Covers(table, bs, n)
  {
  }

  lemma EngineRowCovers(tables: seq<seq<nat>>, lens: seq<nat>, bs: nat, numBlocks: nat, step: nat, cols: nat, r: nat)
    requires bs > 0 && |tables| == |lens| && r < |tables| && DecodeStepOk(tables, lens, bs, numBlocks, step)
    ensures Covers(PadTable(tables[r], cols), bs, lens[r] + step + 1)
  {
    assert DecodeRowOk(tables[r], lens[r], bs, numBlocks, step);
    CoveredBlock(tables[r], bs, lens[r] + step);
    CoversMonotone(tables[r], PadTable(tables[r], cols), bs, lens[r] + step + 1);
  }

  /** In every valid state of the engine the bucketed columns and the padded replay are invisible: the active
      slots get the tokens of the plain forward pass, and every request's cached entries are as after it. */
  lemma PaddedForwardActive(net: Network, p: Pool, numBlocks: nat, kv: seq<Kv>, slots: seq<DecodeSlot>,
                            active: seq<nat>, step: nat, toks: seq<Token>, metaCols: nat,
                            padded: DecodeBatch, maxBatch: nat, cols: nat)
    requires p.blockSize > 0 && Valid(p, numBlocks) && Indexes(active, |slots|) && |toks| == |active|
    requires metaCols >= Width(p, Ids(slots, active))
    requires DecodeStepOk(Tables(p, Ids(slots, active)), PromptLens(slots, active), p.blockSize, numBlocks, step)
    requires var b := EngineBatch(p, slots, active, step, toks, metaCols);
             Rectangular(b, metaCols) && PadDecodeBatchToMax(maxBatch, b, metaCols, cols) == Ok(padded)
    ensures Rectangular(padded, cols) && |padded.inputIds| >= |active|
    ensures var (kv', next) := ForwardActive(net, p, kv, slots, active, step, toks);
            var after := Stored(net, kv, p.blockSize, padded, cols);
            && NextIds(net, after, p.blockSize, padded.metadata)[..|active|] == next
            && forall id, n: nat ::
                 Covers(Table(p, id), p.blockSize, n) ==>
                   Read(net, after, Table(p, id), p.blockSize, n) == Read(net, kv', Table(p, id), p.blockSize, n)
  {
    hide PadDecodeBatchToMax, WriteRow, Read, WriteRows, NextIds, AvoidsPadding, DecodeStepOk, ForwardActive, Stored;
    var b := EngineBatch(p, slots, active, step, toks, metaCols);
    EngineBatchFits(p, numBlocks, slots, active, step, toks, metaCols);
    PaddedReplay(net, kv, p.blockSize, b, padded, maxBatch, metaCols, cols);
    WideForward(net, p, numBlocks, kv, slots, active, step, toks, metaCols);
    forall id, n: nat | Covers(Table(p, id), p.blockSize, n)
      ensures Read(net, Stored(net, kv, p.blockSize, padded, cols), Table(p, id), p.blockSize, n) ==
                Read(net, ForwardActive(net, p, kv, slots, active, step, toks).0, Table(p, id), p.blockSize, n)
    {
      OwnPrefix(p, numBlocks, id, Table(p, id), n);
      ReadIgnoresPadding(net, Stored(net, kv, p.blockSize, b, metaCols), Stored(net, kv, p.blockSize, padded, cols),
                         Table(p, id), p.blockSize, n);
    }
  }

  /** With captured graphs the metadata's columns are the bucket of the longest table: wide enough, and the
      forward pass is the one of the unbucketed tables. */
  lemma BucketedForward(net: Network, p: Pool, numBlocks: nat, kv: seq<Kv>, slots: seq<DecodeSlot>, active: seq<nat>,
                        step: nat, toks: seq<Token>)
    requires p.blockSize > 0 && Valid(p, numBlocks) && Indexes(active, |slots|) && |toks| == |active|
    requires DecodeStepOk(Tables(p, Ids(slots, active)), PromptLens(slots, active), p.blockSize, numBlocks, step)
    ensures var cols := BucketBlockTableCols(Width(p, Ids(slots, active)), p.blockSize);
            var b := EngineBatch(p, slots, active, step, toks, cols);
            && Rectangular(b, cols)
            && var after := Stored(net, kv, p.blockSize, b, cols);
               (after, NextIds(net, after, p.blockSize, b.metadata)) ==
                 ForwardActive(net, p, kv, slots, active, step, toks)
  {
    hide ForwardActive, Stored, NextIds, Rectangular, DecodeStepOk;
    var width := Width(p, Ids(slots, active));
    NextPowerLeast(width, 1);
    WideForward(net, p, numBlocks, kv, slots, active, step, toks, BucketBlockTableCols(width, p.blockSize));
  }
}
