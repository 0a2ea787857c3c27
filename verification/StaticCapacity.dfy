/** When the static engine cannot fail: room for every row's whole budget in a pool that nobody else uses. */
module StaticCapacity {
  import opened Prelude
  import opened Decoding
  import opened BlockPool
  import opened SlotMapping
  import opened PagedKvCache
  import opened PagedCacheRuntime
  import opened DecodeStep
  import opened PrefillInput
  import opened PagedBatchPrefill
  import opened CapacityBounds

  /** The requests have a table, if only an empty one. */
  predicate Known(p: Pool, ids: seq<nat>) {
    forall id :: id in ids ==> id in p.tables
  }

  /** `limit` blocks serve any row to the end of its budget, and the pool has that many for every row. */
  ghost predicate Ample(p: Pool, numBlocks: nat, ids: seq<nat>, lens: seq<nat>, maxNew: nat, limit: nat) {
    && p.blockSize > 0 && |ids| == |lens| && NoDup(ids)
    && HeldOnlyBy(p, ids) && NoneAbove(p, limit)
    && |ids| * limit < numBlocks
    && forall i :: 0 <= i < |lens| ==> lens[i] > 0 && DivCeil(lens[i] + maxNew, p.blockSize) <= limit
  }

  lemma {:induction false} GrownKeepsKnown(p: Pool, slots: seq<DecodeSlot>, sel: seq<nat>, k: nat, ids: seq<nat>)
    requires p.blockSize > 0 && k <= |sel| && Indexes(sel, |slots|) && Known(p, ids)
    ensures Known(GrowSelected(p, slots, sel, k).0, ids)
  {
    if k > 0 {
      hide Fits, Needed;
      GrownKeepsKnown(p, slots, sel, k - 1, ids);
    }
  }

  lemma {:induction false} TakenKeepsKnown(p: Pool, slots: seq<DecodeSlot>, decodable: seq<nat>, eos: seq<Token>,
                                           k: nat, ids: seq<nat>)
    requires p.blockSize > 0 && k <= |decodable| && Indexes(decodable, |slots|) && Known(p, ids)
    ensures Known(TakeTokens(p, slots, decodable, eos, k).0, ids)
  {
    if k > 0 {
      TakenKeepsKnown(p, slots, decodable, eos, k - 1, ids);
    }
  }

  lemma StepKeepsKnown(net: Network, numBlocks: nat, c: Cache, slots: seq<DecodeSlot>, step: nat, maxNew: nat,
                       eos: seq<Token>, ids: seq<nat>)
    requires c.pool.blockSize > 0 && Known(c.pool, ids)
    ensures Known(Decodable(c, slots, step).0, ids)
    ensures Known(DecodeAtStep(net, numBlocks, c, slots, step, maxNew, eos).cache.pool, ids)
  {
    hide Known, ForwardActive, DecodeStepOk;
    var sel := Forward(slots, step, |slots|);
    GrownKeepsKnown(c.pool, slots, sel, |sel|, ids);
    var (p, decodable) := Decodable(c, slots, step);
    TakenKeepsKnown(p, slots, decodable, eos, |decodable|, ids);
  }

  /** The slots of a batch: one per request, unfinished ones with a token per step. */
  ghost predicate BatchSlots(slots: seq<DecodeSlot>, ids: seq<nat>, lens: seq<nat>, step: nat) {
    && |slots| == |ids| == |lens|
    && (forall i :: 0 <= i < |slots| ==> slots[i].requestId == ids[i] && slots[i].promptLen == lens[i])
    && forall i :: 0 <= i < |slots| && !slots[i].finished ==> |slots[i].generated| == step
  }

  /** With ample room a step is refused nothing and leaves ample room. */
  lemma AmpleStep(net: Network, numBlocks: nat, c: Cache, slots: seq<DecodeSlot>, step: nat, maxNew: nat,
                  eos: seq<Token>, ids: seq<nat>, lens: seq<nat>, limit: nat)
    requires ValidCache(c, numBlocks) && Ample(c.pool, numBlocks, ids, lens, maxNew, limit)
    requires BatchSlots(slots, ids, lens, step) && step < maxNew
    ensures !Refuses(c, slots, step) && AllFit(c.pool, slots, Forward(slots, step, |slots|))
    ensures Ample(DecodeAtStep(net, numBlocks, c, slots, step, maxNew, eos).cache.pool, numBlocks, ids, lens, maxNew,
                  limit)
  {
    hide DecodeAtStep, Refuses, AllFit, HeldOnlyBy, NoneAbove, ValidCache;
    forall i | 0 <= i < |slots|
      ensures slots[i].requestId in ids
      ensures TakesPart(slots[i], step) ==> DivCeil(TokensAfter(slots[i]), c.pool.blockSize) <= limit
    {
      assert ids[i] in ids;
      if TakesPart(slots[i], step) {
        DivCeilMonotone(TokensAfter(slots[i]), lens[i] + maxNew, c.pool.blockSize);
      }
    }
    hide DivCeil;
    LimitStep(net, numBlocks, c, slots, step, maxNew, eos, ids, limit, |ids|);
  }

  // ----- the prefill

  /** What the caller can check before a run: the batch has its shape and its audio, nobody else holds blocks,
      and the pool holds the whole budget of every row. */
  ghost predicate RoomForBatch(p: Pool, numBlocks: nat, idRows: seq<seq<Token>>, masks: seq<seq<nat>>, audioId: Token,
                               audio: seq<AudioRow>, base: nat, maxNew: nat, eos: seq<Token>, packed: bool)
  {
    && p.blockSize > 0 && idRows != [] && eos != [] && |idRows[0]| > 0
    && SameLength(idRows, masks, |idRows[0]|)
    && (var placeholders := AudioOffset(VisibleRows(idRows, masks), audioId, |idRows|);
        if packed then placeholders <= |audio| else placeholders == |audio|)
    && HeldOnlyBy(p, RequestIds(base, |idRows|))
    && exists limit: nat :: RoomPerRow(p.blockSize, numBlocks, MaskLens(masks), maxNew, limit)
  }

  ghost predicate RoomPerRow(bs: nat, numBlocks: nat, lens: seq<nat>, maxNew: nat, limit: nat)
    requires bs > 0
  {
    |lens| * limit < numBlocks && forall i :: 0 <= i < |lens| ==> lens[i] > 0 && DivCeil(lens[i] + maxNew, bs) <= limit
  }

  lemma {:induction false} PromptBlocks(bs: nat, lens: seq<nat>, maxNew: nat, limit: nat, k: nat)
    requires bs > 0 && k <= |lens| && forall i :: 0 <= i < |lens| ==> DivCeil(lens[i] + maxNew, bs) <= limit
    ensures BlocksOf(lens, bs, k) <= k * limit
  {
    if k > 0 {
      PromptBlocks(bs, lens, maxNew, limit, k - 1);
      DivCeilMonotone(lens[k - 1], lens[k - 1] + maxNew, bs);
      assert k * limit == (k - 1) * limit + limit;
    }
  }

  /** Releasing the batch's ids empties the pool. */
  lemma ReleasedAll(p: Pool, numBlocks: nat, ids: seq<nat>)
    requires Valid(p, numBlocks) && HeldOnlyBy(p, ids) && numBlocks > 0
    ensures var q := ReleaseAll(p, ids, |ids|);
            Valid(q, numBlocks) && |q.free| == numBlocks - 1 && forall id: nat :: Table(q, id) == []
  {
    var q := ReleaseAll(p, ids, |ids|);
    ReleaseAllValid(p, ids, |ids|, numBlocks);
    assert ids[..|ids|] == ids;
    forall id: nat
      ensures Table(q, id) == []
    {
      if id !in ids {
        assert Table(p, id) == [];
      }
    }
    Conservation(q, [], numBlocks);
  }

  lemma PrefillHasRoom(p: Pool, numBlocks: nat, ids: seq<nat>, lens: seq<nat>, maxNew: nat, limit: nat)
    requires Valid(p, numBlocks) && |p.free| == numBlocks - 1 && (forall id: nat :: Table(p, id) == []) && NoDup(ids)
    requires |ids| == |lens| && RoomPerRow(p.blockSize, numBlocks, lens, maxNew, limit)
    ensures PromptsFit(p, ids, lens, |ids|)
  {
    hide PromptsFit, BlocksOf, DivCeil;
    PromptBlocks(p.blockSize, lens, maxNew, limit, |lens|);
    WaveFits(p, ids, lens, |ids|);
  }

  lemma PrefilledTable(p: Pool, numBlocks: nat, ids: seq<nat>, lens: seq<nat>, next: seq<Token>, eos: seq<Token>,
                       id: nat)
    requires Valid(p, numBlocks) && (forall i: nat :: Table(p, i) == []) && NoDup(ids) && |ids| == |lens| == |next|
    requires PromptsFit(p, ids, lens, |ids|)
    ensures var q := TrimFinished(GrowPrompts(p, ids, lens, |ids|), ids, lens, next, eos, |ids|);
            && (id !in ids ==> Table(q, id) == [])
            && forall i :: 0 <= i < |ids| && ids[i] == id ==> |Table(q, id)| <= DivCeil(lens[i], p.blockSize)
  {
    assert p.blockSize > 0;
    hide TrimFinished, GrowPrompts, DivCeil, BlockPool.Valid, PromptsFit;
    var grown := GrowPrompts(p, ids, lens, |ids|);
    GrowPromptsValid(p, ids, lens, |ids|, numBlocks);
    TrimFinishedTables(grown, ids, lens, next, eos, |ids|, numBlocks);
    assert ids[..|ids|] == ids;
    forall i | 0 <= i < |ids| && ids[i] == id
      ensures |Table(grown, id)| <= DivCeil(lens[i], p.blockSize)
    {
      WaveTable(p, ids, lens, |ids|, i);
    }
  }

  lemma {:induction false} TrimKeepsKnown(p: Pool, ids: seq<nat>, lens: seq<nat>, next: seq<Token>, eos: seq<Token>,
                                          k: nat, known: seq<nat>)
    requires p.blockSize > 0 && k <= |ids| == |lens| == |next| && Known(p, known)
    ensures Known(TrimFinished(p, ids, lens, next, eos, k), known)
  {
    if k > 0 {
      TrimKeepsKnown(p, ids, lens, next, eos, k - 1, known);
    }
  }

  /** Every prompt with a token has its table after the prefill. */
  lemma GrownKnown(p: Pool, ids: seq<nat>, lens: seq<nat>)
    requires p.blockSize > 0 && (forall i: nat :: Table(p, i) == []) && NoDup(ids) && |ids| == |lens|
    requires PromptsFit(p, ids, lens, |ids|) && forall i :: 0 <= i < |lens| ==> lens[i] > 0
    ensures Known(GrowPrompts(p, ids, lens, |ids|), ids)
  {
    hide GrowPrompts, PromptsFit, DivCeil;
    forall id | id in ids
      ensures id in GrowPrompts(p, ids, lens, |ids|).tables
    {
      var i :| 0 <= i < |ids| && ids[i] == id;
      WaveTable(p, ids, lens, |ids|, i);
      DivCeilLeast(lens[i], p.blockSize, 0);
      assert |Table(GrowPrompts(p, ids, lens, |ids|), id)| > 0;
    }
  }

  /** After its prefill the batch still has ample room. */
  lemma AmpleAfterPrefill(c: Cache, numBlocks: nat, ids: seq<nat>, lens: seq<nat>, next: seq<Token>, eos: seq<Token>,
                          maxNew: nat, limit: nat)
    requires ValidCache(c, numBlocks) && |c.pool.free| == numBlocks - 1 && (forall id: nat :: Table(c.pool, id) == [])
    requires NoDup(ids)
    requires |ids| == |lens| == |next| && c.pool.blockSize > 0
    requires RoomPerRow(c.pool.blockSize, numBlocks, lens, maxNew, limit)
    ensures var q := TrimFinished(GrowPrompts(c.pool, ids, lens, |ids|), ids, lens, next, eos, |ids|);
            Ample(q, numBlocks, ids, lens, maxNew, limit) && Known(q, ids)
  {
    hide TrimFinished, GrowPrompts, DivCeil, BlockPool.Valid, PromptsFit, Known;
    var q := TrimFinished(GrowPrompts(c.pool, ids, lens, |ids|), ids, lens, next, eos, |ids|);
    PrefillHasRoom(c.pool, numBlocks, ids, lens, maxNew, limit);
    GrownKnown(c.pool, ids, lens);
    TrimKeepsKnown(GrowPrompts(c.pool, ids, lens, |ids|), ids, lens, next, eos, |ids|, ids);
    forall id: nat
      ensures Table(q, id) != [] ==> id in ids
      ensures |Table(q, id)| <= limit
    {
      PrefilledTable(c.pool, numBlocks, ids, lens, next, eos, id);
      if id in ids {
        var i :| 0 <= i < |ids| && ids[i] == id;
        DivCeilMonotone(lens[i], lens[i] + maxNew, c.pool.blockSize);
      }
    }
  }

  lemma RoomParts(p: Pool, numBlocks: nat, idRows: seq<seq<Token>>, masks: seq<seq<nat>>, audioId: Token,
                  audio: seq<AudioRow>, base: nat, maxNew: nat, eos: seq<Token>, packed: bool)
    returns (limit: nat)
    requires RoomForBatch(p, numBlocks, idRows, masks, audioId, audio, base, maxNew, eos, packed)
    ensures p.blockSize > 0 && |masks| == |idRows| && HeldOnlyBy(p, RequestIds(base, |idRows|))
    ensures RoomPerRow(p.blockSize, numBlocks, MaskLens(masks), maxNew, limit) && numBlocks > 0
  {
    hide VisibleRows, AudioOffset, MaskLens, HeldOnlyBy, RequestIds;
    limit :| RoomPerRow(p.blockSize, numBlocks, MaskLens(masks), maxNew, limit);
  }

  /** A batch with room passes every check of its prefill. */
  lemma RoomGrants(p: Pool, numBlocks: nat, idRows: seq<seq<Token>>, masks: seq<seq<nat>>, audioId: Token,
                   audio: seq<AudioRow>, base: nat, maxNew: nat, eos: seq<Token>, packed: bool)
    requires Valid(p, numBlocks) && RoomForBatch(p, numBlocks, idRows, masks, audioId, audio, base, maxNew, eos, packed)
    ensures var q := ReleaseAll(p, RequestIds(base, |idRows|), |idRows|);
            q.blockSize > 0 && PrefillOk(q, idRows, masks, audioId, audio, base, eos, packed)
  {
    hide BlockPool.Valid, PromptsFit, HeldOnlyBy, ReleaseAll, RoomForBatch, RequestIds, MaskLens, PrefillOk, RoomPerRow;
    var limit := RoomParts(p, numBlocks, idRows, masks, audioId, audio, base, maxNew, eos, packed);
    var ids := RequestIds(base, |idRows|);
    RequestIdsRange(base, |idRows|);
    ReleasedAll(p, numBlocks, ids);
    PrefillHasRoom(ReleaseAll(p, ids, |ids|), numBlocks, ids, MaskLens(masks), maxNew, limit);
    ChecksPass(p, ReleaseAll(p, ids, |ids|), numBlocks, idRows, masks, audioId, audio, base, maxNew, eos, packed,
               limit);
  }

  lemma ChecksPass(p: Pool, q: Pool, numBlocks: nat, idRows: seq<seq<Token>>, masks: seq<seq<nat>>, audioId: Token,
                   audio: seq<AudioRow>, base: nat, maxNew: nat, eos: seq<Token>, packed: bool,
                   limit: nat)
    requires RoomForBatch(p, numBlocks, idRows, masks, audioId, audio, base, maxNew, eos, packed)
    requires q.blockSize == p.blockSize > 0 && |masks| == |idRows|
    requires RoomPerRow(p.blockSize, numBlocks, MaskLens(masks), maxNew, limit)
    requires PromptsFit(q, RequestIds(base, |idRows|), MaskLens(masks), |idRows|)
    ensures PrefillOk(q, idRows, masks, audioId, audio, base, eos, packed)
  {
    hide PromptsFit, VisibleRows, AudioOffset, MaskLen, DivCeil, HeldOnlyBy, RequestIds;
    forall i | 0 <= i < |masks|
      ensures MaskLen(masks[i]) > 0
    {
      assert MaskLens(masks)[i] > 0;
    }
  }

  lemma RoomAfterPrefill(net: Network, p: Pool, numBlocks: nat, c: Cache, c': Cache, idRows: seq<seq<Token>>,
                         masks: seq<seq<nat>>, audioId: Token, audio: seq<AudioRow>, base: nat, maxNew: nat,
                         eos: seq<Token>, packed: bool, prompts: seq<seq<Item>>, next: seq<Token>)
    requires Valid(p, numBlocks) && RoomForBatch(p, numBlocks, idRows, masks, audioId, audio, base, maxNew, eos, packed)
    requires ValidCache(c, numBlocks) && c.pool == ReleaseAll(p, RequestIds(base, |idRows|), |idRows|)
    requires 0 < c.pool.blockSize
    requires |next| == |idRows| == |masks|
    requires Prefilled(net, numBlocks, c, c', RequestIds(base, |idRows|), MaskLens(masks), prompts, next, eos)
    ensures Known(c'.pool, RequestIds(base, |idRows|))
    ensures exists limit: nat :: Ample(c'.pool, numBlocks, RequestIds(base, |idRows|), MaskLens(masks), maxNew, limit)
  {
    hide BlockPool.Valid, HeldOnlyBy, ReleaseAll, Ample, Known, TrimFinished, GrowPrompts, RoomForBatch, RequestIds,
         MaskLens, RoomPerRow, Prefilled;
    var limit := RoomParts(p, numBlocks, idRows, masks, audioId, audio, base, maxNew, eos, packed);
    var ids := RequestIds(base, |idRows|);
    RequestIdsRange(base, |idRows|);
    ReleasedAll(p, numBlocks, ids);
    AmpleAfterPrefill(c, numBlocks, ids, MaskLens(masks), next, eos, maxNew, limit);
    PrefilledPool(net, numBlocks, c, c', ids, MaskLens(masks), prompts, next, eos);
  }

  lemma PrefilledPool(net: Network, numBlocks: nat, c: Cache, c': Cache, ids: seq<nat>, lens: seq<nat>,
                      prompts: seq<seq<Item>>, next: seq<Token>, eos: seq<Token>)
    requires 0 < c.pool.blockSize && |ids| == |lens| == |next|
    requires Prefilled(net, numBlocks, c, c', ids, lens, prompts, next, eos)
    ensures c'.pool == TrimFinished(GrowPrompts(c.pool, ids, lens, |ids|), ids, lens, next, eos, |ids|)
  {
  }
}
