/** When the pool is large enough: admission control against the block count, head room for the next
    decode pass, and the bound under which no allocation of a run is ever refused. */
module CapacityBounds {
  import opened Prelude
  import opened Decoding
  import opened BlockPool
  import opened SlotMapping
  import opened PagedCacheRuntime
  import opened DecodeStep
  import opened DecodeSoundness
  import opened PrefillInput
  import opened ContinuousBatch

  /** Some slot of the step does not get the block it needs. */
  ghost predicate Refuses(c: Cache, slots: seq<DecodeSlot>, step: nat)
    requires c.pool.blockSize > 0
  {
    exists i :: 0 <= i < |slots| && TakesPart(slots[i], step) && i !in Decodable(c, slots, step).1
  }

  /** The `j`-th selected slot is granted its block when its turn comes. */
  ghost predicate Granted(p: Pool, slots: seq<DecodeSlot>, sel: seq<nat>, j: nat)
    requires p.blockSize > 0 && j < |sel| && Indexes(sel, |slots|)
  {
    Fits(GrowSelected(p, slots, sel, j).0, slots[sel[j]].requestId, TokensAfter(slots[sel[j]]))
  }

  ghost predicate AllFit(p: Pool, slots: seq<DecodeSlot>, sel: seq<nat>) {
    p.blockSize > 0 && Indexes(sel, |slots|) && forall j :: 0 <= j < |sel| ==> Granted(p, slots, sel, j)
  }

  lemma {:induction false} AllGranted(p: Pool, slots: seq<DecodeSlot>, sel: seq<nat>, k: nat)
    requires p.blockSize > 0 && k <= |sel| && Indexes(sel, |slots|)
    requires forall j :: 0 <= j < k ==> Granted(p, slots, sel, j)
    ensures GrowSelected(p, slots, sel, k).1 == sel[..k]
  {
    if k > 0 {
      hide Fits, Grow;
      AllGranted(p, slots, sel, k - 1);
      assert Granted(p, slots, sel, k - 1);
    }
  }

  lemma NoRefusal(c: Cache, slots: seq<DecodeSlot>, step: nat, sel: seq<nat>)
    requires c.pool.blockSize > 0 && sel == Forward(slots, step, |slots|)
    requires forall j :: 0 <= j < |sel| ==> Granted(c.pool, slots, sel, j)
    ensures !Refuses(c, slots, step)
  {
    ForwardIsSelection(slots, step, |slots|);
    AllGranted(c.pool, slots, sel, |sel|);
    assert sel[..|sel|] == sel;
  }

  // ----- the number of free blocks

  lemma GrowFree(p: Pool, id: nat, tokens: nat)
    requires p.blockSize > 0
    ensures |Grow(p, id, tokens).free| == if Fits(p, id, tokens) then |p.free| - Needed(p, id, tokens) else |p.free|
    ensures !Fits(p, id, tokens) ==> Grow(p, id, tokens) == p
    ensures Fits(p, id, tokens) ==>
              |Table(Grow(p, id, tokens), id)| == Max(|Table(p, id)|, DivCeil(tokens, p.blockSize))
  {
  }

  lemma TrimFree(p: Pool, id: nat, tokens: nat, numBlocks: nat)
    requires Valid(p, numBlocks)
    ensures |Trim(p, id, tokens).free| >= |p.free|
    ensures |Table(Trim(p, id, tokens), id)| <= |Table(p, id)|
  {
    if Trim(p, id, tokens) != p {
      var required := DivCeil(tokens, p.blockSize);
      var removed := p.tables[id][required..];
      SplitNoDup(p.tables[id], required);
      forall b: nat | b in removed
        ensures b != 0 && b !in p.free
      {
        assert Owns(p, id, b);
      }
      ReturnedBlocks(p.free, removed);
    }
  }

  /** A slot that is cached up to its last token needs at most one more block. */
  lemma OneBlockEnough(p: Pool, s: DecodeSlot)
    requires p.blockSize > 0 && Covers(Table(p, s.requestId), p.blockSize, s.promptLen + |s.generated|)
    ensures Needed(p, s.requestId, TokensAfter(s)) <= 1
  {
    var n := |Table(p, s.requestId)|;
    assert (n + 1) * p.blockSize == n * p.blockSize + p.blockSize;
    DivCeilLeast(TokensAfter(s), p.blockSize, n + 1);
  }

  lemma {:induction false} HeadroomGrows(p: Pool, slots: seq<DecodeSlot>, sel: seq<nat>, k: nat)
    requires p.blockSize > 0 && k <= |sel| <= |p.free| && Indexes(sel, |slots|)
    requires forall j ::
              0 <= j < |sel| ==>
                Covers(Table(p, slots[sel[j]].requestId), p.blockSize,
                       slots[sel[j]].promptLen + |slots[sel[j]].generated|)
    ensures |GrowSelected(p, slots, sel, k).0.free| >= |p.free| - k
    ensures forall j :: 0 <= j < k ==> Granted(p, slots, sel, j)
  {
    hide Fits, Grow, Covers, Granted, GrowSelected, Needed;
    if k == 0 {
      NothingSelected(p, slots, sel);
    } else {
      HeadroomGrows(p, slots, sel, k - 1);
      var q := GrowSelected(p, slots, sel, k - 1).0;
      var s := slots[sel[k - 1]];
      GrowSelectedExtends(p, slots, sel, k - 1, s.requestId);
      CoversMonotone(Table(p, s.requestId), Table(q, s.requestId), p.blockSize, s.promptLen + |s.generated|);
      OneBlockEnough(q, s);
      GrantedNow(p, slots, sel, k - 1);
    }
  }

  lemma NothingSelected(p: Pool, slots: seq<DecodeSlot>, sel: seq<nat>)
    requires p.blockSize > 0 && Indexes(sel, |slots|)
    ensures GrowSelected(p, slots, sel, 0) == (p, [])
  {
  }

  /** A block to spare is enough for a slot that needs at most one. */
  lemma GrantedNow(p: Pool, slots: seq<DecodeSlot>, sel: seq<nat>, j: nat)
    requires p.blockSize > 0 && j < |sel| && Indexes(sel, |slots|)
    requires var q, s := GrowSelected(p, slots, sel, j).0, slots[sel[j]];
             Needed(q, s.requestId, TokensAfter(s)) <= 1 <= |q.free|
    ensures Granted(p, slots, sel, j)
    ensures |GrowSelected(p, slots, sel, j + 1).0.free| >= |GrowSelected(p, slots, sel, j).0.free| - 1
  {
    var q, s := GrowSelected(p, slots, sel, j).0, slots[sel[j]];
    GrowFree(q, s.requestId, TokensAfter(s));
  }

  lemma {:induction false} GrowSelectedExtends(p: Pool, slots: seq<DecodeSlot>, sel: seq<nat>, k: nat, id: nat)
    requires p.blockSize > 0 && k <= |sel| && Indexes(sel, |slots|)
    ensures Table(p, id) <= Table(GrowSelected(p, slots, sel, k).0, id)
  {
    if k > 0 {
      GrowSelectedExtends(p, slots, sel, k - 1, id);
      var s := slots[sel[k - 1]];
      GrowKeepsPrefix(GrowSelected(p, slots, sel, k - 1).0, s.requestId, TokensAfter(s), id);
    }
  }

  lemma {:induction false} TakeFree(p: Pool, slots: seq<DecodeSlot>, decodable: seq<nat>, eos: seq<Token>, k: nat,
                                    numBlocks: nat)
    requires Valid(p, numBlocks) && k <= |decodable| && Indexes(decodable, |slots|) && NoDup(decodable)
    ensures |TakeTokens(p, slots, decodable, eos, k).0.free| >= |p.free|
    ensures forall id: nat :: |Table(TakeTokens(p, slots, decodable, eos, k).0, id)| <= |Table(p, id)|
  {
    if k > 0 {
      hide Trim, BlockPool.Valid;
      TakeFree(p, slots, decodable, eos, k - 1, numBlocks);
      TakeTokensTables(p, slots, decodable, eos, k - 1, numBlocks);
      var (q, after, _) := TakeTokens(p, slots, decodable, eos, k - 1);
      var s := after[decodable[k - 1]];
      TrimShrinks(q, s.requestId, s.promptLen + |s.generated|, numBlocks);
    }
  }

  lemma TrimShrinks(p: Pool, id: nat, tokens: nat, numBlocks: nat)
    requires Valid(p, numBlocks)
    ensures |Trim(p, id, tokens).free| >= |p.free|
    ensures forall other: nat :: |Table(Trim(p, id, tokens), other)| <= |Table(p, other)|
  {
    TrimFree(p, id, tokens, numBlocks);
    hide Trim, BlockPool.Valid;
    var q := Trim(p, id, tokens);
    forall other: nat
      ensures |Table(q, other)| <= |Table(p, other)|
    {
      TrimKeepsPrefix(p, id, tokens, other);
    }
  }

  /** With a free block per slot, a step over sound slots refuses nobody and uses no more than that. */
  lemma HeadroomStep(net: Network, numBlocks: nat, c: Cache, slots: seq<DecodeSlot>, step: nat, maxNew: nat,
                     eos: seq<Token>, prompts: seq<seq<Item>>)
    requires StepInput(net, numBlocks, c, slots, step, maxNew, eos, prompts)
    requires |slots| <= |c.pool.free|
    ensures !Refuses(c, slots, step)
    ensures |DecodeAtStep(net, numBlocks, c, slots, step, maxNew, eos).cache.pool.free| >= |c.pool.free| - |slots|
  {
    SelectionCovered(net, numBlocks, c, slots, step, maxNew, eos, prompts);
    hide Covers, Sound, DecodeAtStep;
    HeadroomGrants(c, slots, step, Forward(slots, step, |slots|), numBlocks);
    StepFree(net, numBlocks, c, slots, step, maxNew, eos);
  }

  lemma HeadroomGrants(c: Cache, slots: seq<DecodeSlot>, step: nat, sel: seq<nat>, numBlocks: nat)
    requires Valid(c.pool, numBlocks) && sel == Forward(slots, step, |slots|) && |slots| <= |c.pool.free|
    requires SelectedCovered(c, slots, sel)
    ensures !Refuses(c, slots, step)
    ensures Valid(Decodable(c, slots, step).0, numBlocks)
    ensures |Decodable(c, slots, step).0.free| + |slots| >= |c.pool.free|
  {
    SelectionSize(slots, step, |slots|);
    HeadroomGrows(c.pool, slots, sel, |sel|);
    NoRefusal(c, slots, step, sel);
    GrowSelectedTables(c.pool, slots, sel, |sel|, numBlocks);
  }

  /** The cache covers what each selected slot has so far. */
  ghost predicate SelectedCovered(c: Cache, slots: seq<DecodeSlot>, sel: seq<nat>) {
    Indexes(sel, |slots|) && forall j :: 0 <= j < |sel| ==> CoveredSoFar(c, slots[sel[j]])
  }

  ghost predicate CoveredSoFar(c: Cache, s: DecodeSlot) {
    Covers(Table(c.pool, s.requestId), c.pool.blockSize, s.promptLen + |s.generated|)
  }

  lemma SelectionCovered(net: Network, numBlocks: nat, c: Cache, slots: seq<DecodeSlot>, step: nat, maxNew: nat,
                         eos: seq<Token>, prompts: seq<seq<Item>>)
    requires StepInput(net, numBlocks, c, slots, step, maxNew, eos, prompts)
    ensures SelectedCovered(c, slots, Forward(slots, step, |slots|))
  {
    assert c.pool.blockSize > 0;
    hide Sound, Covers, BlockPool.Valid, Forward;
    var sel := Forward(slots, step, |slots|);
    ForwardIsSelection(slots, step, |slots|);
    forall j | 0 <= j < |sel|
      ensures CoveredSoFar(c, slots[sel[j]])
    {
      assert sel[j] in sel;
      SoundIsCached(net, eos, maxNew, c.pool, c.kv, prompts[sel[j]], slots[sel[j]]);
    }
  }

  /** After its allocations a step only gives blocks back. */
  lemma StepFree(net: Network, numBlocks: nat, c: Cache, slots: seq<DecodeSlot>, step: nat, maxNew: nat,
                 eos: seq<Token>)
    requires c.pool.blockSize > 0 && Valid(Decodable(c, slots, step).0, numBlocks)
    requires |Decodable(c, slots, step).0.free| + |slots| >= |c.pool.free|
    ensures |DecodeAtStep(net, numBlocks, c, slots, step, maxNew, eos).cache.pool.free| >= |c.pool.free| - |slots|
  {
    SelectionDistinct(c, slots, step);
    var (p, decodable) := Decodable(c, slots, step);
    TakeFree(p, slots, decodable, eos, |decodable|, numBlocks);
  }

  lemma {:induction false} SelectionSize(slots: seq<DecodeSlot>, step: nat, k: nat)
    requires k <= |slots|
    ensures |Forward(slots, step, k)| <= k
  {
    if k > 0 {
      SelectionSize(slots, step, k - 1);
    }
  }

  // ----- exclusive use of the pool

  /** Request ids of the occupied places. */
  function RunningIds(running: seq<Option<RunningSlot>>): (ids: seq<nat>)
    ensures |ids| <= |running|
  {
    if running == [] then [] else
      var k := |running| - 1;
      RunningIds(running[..k]) + (if running[k].Some? then [running[k].value.slot.requestId] else [])
  }

  lemma {:induction false} RunningIdsAre(running: seq<Option<RunningSlot>>)
    requires forall i, j ::
              0 <= i < j < |running| && running[i].Some? && running[j].Some? ==>
                running[i].value.slot.requestId != running[j].value.slot.requestId
    ensures NoDup(RunningIds(running))
    ensures forall id: nat ::
              id in RunningIds(running) <==>
                exists i :: 0 <= i < |running| && running[i].Some? && running[i].value.slot.requestId == id
  {
    if running != [] {
      var k := |running| - 1;
      RunningIdsAre(running[..k]);
      forall id: nat
        ensures id in RunningIds(running) <==>
                  exists i :: 0 <= i < |running| && running[i].Some? && running[i].value.slot.requestId == id
      {
        if exists i :: 0 <= i < |running| && running[i].Some? && running[i].value.slot.requestId == id {
          var i :| 0 <= i < |running| && running[i].Some? && running[i].value.slot.requestId == id;
          if i < k {
            assert running[..k][i].Some?;
          }
        }
        if id in RunningIds(running[..k]) {
          var i :| 0 <= i < k && running[..k][i].Some? && running[..k][i].value.slot.requestId == id;
          assert running[i].Some?;
        }
      }
      if running[k].Some? {
        assert running[k].value.slot.requestId !in RunningIds(running[..k]);
      }
    }
  }

  /** Only the listed requests hold blocks. */
  ghost predicate HeldOnlyBy(p: Pool, ids: seq<nat>) {
    forall id: nat :: Table(p, id) != [] ==> id in ids
  }

  ghost predicate NoneAbove(p: Pool, limit: nat) {
    forall id: nat :: |Table(p, id)| <= limit
  }

  lemma {:induction false} HeldBound(p: Pool, ids: seq<nat>, limit: nat)
    requires NoneAbove(p, limit)
    ensures Held(p, ids) <= |ids| * limit
  {
    if ids != [] {
      HeldBound(p, ids[..|ids| - 1], limit);
    }
  }

  lemma {:induction false} HeldBoundWithout(p: Pool, ids: seq<nat>, limit: nat, id: nat)
    requires NoneAbove(p, limit) && NoDup(ids) && id in ids
    ensures Held(p, ids) <= (|ids| - 1) * limit + |Table(p, id)|
  {
    var k := |ids| - 1;
    if ids[k] == id {
      HeldBound(p, ids[..k], limit);
    } else {
      HeldBoundWithout(p, ids[..k], limit, id);
      assert (k - 1) * limit + limit == k * limit;
    }
  }

  /** With `limit` blocks for each of `|ids|` requests, one that stays within its limit always fits. */
  lemma FitsWithinLimit(p: Pool, numBlocks: nat, ids: seq<nat>, limit: nat, places: nat, id: nat, tokens: nat)
    requires Valid(p, numBlocks) && HeldOnlyBy(p, ids) && NoneAbove(p, limit) && NoDup(ids) && id in ids
    requires |ids| <= places && places * limit <= numBlocks - 1
    requires DivCeil(tokens, p.blockSize) <= limit
    ensures Fits(p, id, tokens)
  {
    Conservation(p, ids, numBlocks);
    HeldBoundWithout(p, ids, limit, id);
    MulMonotone(|ids|, places, limit);
  }

  lemma LimitGrant(p: Pool, numBlocks: nat, ids: seq<nat>, limit: nat, places: nat, slots: seq<DecodeSlot>,
                   sel: seq<nat>, j: nat)
    requires p.blockSize > 0 && j < |sel| && Indexes(sel, |slots|)
    requires Within(GrowSelected(p, slots, sel, j).0, numBlocks, ids, limit)
    requires NoDup(ids) && |ids| <= places && places * limit <= numBlocks - 1
    requires slots[sel[j]].requestId in ids && DivCeil(TokensAfter(slots[sel[j]]), p.blockSize) <= limit
    ensures Granted(p, slots, sel, j)
    ensures Within(GrowSelected(p, slots, sel, j + 1).0, numBlocks, ids, limit)
  {
    var q, s := GrowSelected(p, slots, sel, j).0, slots[sel[j]];
    FitsWithinLimit(q, numBlocks, ids, limit, places, s.requestId, TokensAfter(s));
    GrowWithinLimit(q, numBlocks, ids, limit, s.requestId, TokensAfter(s));
  }

  lemma GrowWithinLimit(q: Pool, numBlocks: nat, ids: seq<nat>, limit: nat, id: nat, tokens: nat)
    requires Valid(q, numBlocks) && HeldOnlyBy(q, ids) && NoneAbove(q, limit)
    requires id in ids && DivCeil(tokens, q.blockSize) <= limit && Fits(q, id, tokens)
    ensures var q' := Grow(q, id, tokens); Valid(q', numBlocks) && HeldOnlyBy(q', ids) && NoneAbove(q', limit)
  {
    GrowValid(q, id, tokens, numBlocks);
    hide BlockPool.Valid;
    GrowFree(q, id, tokens);
    forall other: nat | other != id
      ensures Table(Grow(q, id, tokens), other) == Table(q, other)
    {
      OtherTable(q, id, tokens, other);
    }
  }

  ghost predicate Within(p: Pool, numBlocks: nat, ids: seq<nat>, limit: nat) {
    Valid(p, numBlocks) && HeldOnlyBy(p, ids) && NoneAbove(p, limit)
  }

  lemma {:induction false} LimitGrows(p: Pool, numBlocks: nat, ids: seq<nat>, limit: nat, places: nat,
                                      slots: seq<DecodeSlot>, sel: seq<nat>, k: nat)
    requires p.blockSize > 0 && Within(p, numBlocks, ids, limit) && NoDup(ids)
    requires |ids| <= places && places * limit <= numBlocks - 1
    requires k <= |sel| && Indexes(sel, |slots|)
    requires forall j ::
              0 <= j < |sel| ==>
                slots[sel[j]].requestId in ids && DivCeil(TokensAfter(slots[sel[j]]), p.blockSize) <= limit
    ensures Within(GrowSelected(p, slots, sel, k).0, numBlocks, ids, limit)
    ensures forall j :: 0 <= j < k ==> Granted(p, slots, sel, j)
  {
    hide Granted, Within, GrowSelected, DivCeil, TokensAfter;
    if k == 0 {
      NobodyGrown(p, slots, sel);
    } else {
      LimitGrows(p, numBlocks, ids, limit, places, slots, sel, k - 1);
      LimitGrant(p, numBlocks, ids, limit, places, slots, sel, k - 1);
    }
  }

  lemma NobodyGrown(p: Pool, slots: seq<DecodeSlot>, sel: seq<nat>)
    requires p.blockSize > 0 && Indexes(sel, |slots|)
    ensures GrowSelected(p, slots, sel, 0) == (p, [])
  {
  }

  /** Within the limit a step refuses nobody, and everybody stays within the limit. */
  lemma LimitStep(net: Network, numBlocks: nat, c: Cache, slots: seq<DecodeSlot>, step: nat, maxNew: nat,
                  eos: seq<Token>, ids: seq<nat>, limit: nat, places: nat)
    requires ValidCache(c, numBlocks) && HeldOnlyBy(c.pool, ids) && NoneAbove(c.pool, limit) && NoDup(ids)
    requires |ids| <= places && places * limit <= numBlocks - 1
    requires forall i :: 0 <= i < |slots| ==> slots[i].requestId in ids
    requires forall i ::
              0 <= i < |slots| && TakesPart(slots[i], step) ==>
                DivCeil(TokensAfter(slots[i]), c.pool.blockSize) <= limit
    ensures !Refuses(c, slots, step) && AllFit(c.pool, slots, Forward(slots, step, |slots|))
    ensures var q := DecodeAtStep(net, numBlocks, c, slots, step, maxNew, eos).cache.pool;
            HeldOnlyBy(q, ids) && NoneAbove(q, limit)
  {
    LimitGrants(c, numBlocks, ids, limit, places, slots, step, Forward(slots, step, |slots|));
    SelectionDistinct(c, slots, step);
    var (p, decodable) := Decodable(c, slots, step);
    TakeFree(p, slots, decodable, eos, |decodable|, numBlocks);
  }

  lemma LimitGrants(c: Cache, numBlocks: nat, ids: seq<nat>, limit: nat, places: nat, slots: seq<DecodeSlot>, step: nat,
                    sel: seq<nat>)
    requires Valid(c.pool, numBlocks) && HeldOnlyBy(c.pool, ids) && NoneAbove(c.pool, limit) && NoDup(ids)
    requires |ids| <= places && places * limit <= numBlocks - 1 && sel == Forward(slots, step, |slots|)
    requires forall i ::
              0 <= i < |slots| && TakesPart(slots[i], step) ==>
                slots[i].requestId in ids && DivCeil(TokensAfter(slots[i]), c.pool.blockSize) <= limit
    ensures !Refuses(c, slots, step) && AllFit(c.pool, slots, sel)
    ensures var q := Decodable(c, slots, step).0; Valid(q, numBlocks) && HeldOnlyBy(q, ids) && NoneAbove(q, limit)
  {
    ForwardIsSelection(slots, step, |slots|);
    forall j | 0 <= j < |sel|
      ensures slots[sel[j]].requestId in ids && DivCeil(TokensAfter(slots[sel[j]]), c.pool.blockSize) <= limit
    {
      assert sel[j] in sel;
    }
    hide DivCeil, BlockPool.Valid;
    LimitGrows(c.pool, numBlocks, ids, limit, places, slots, sel, |sel|);
    NoRefusal(c, slots, step, sel);
  }

  // ----- admission

  function BlocksOf(lens: seq<nat>, bs: nat, k: nat): nat
    requires bs > 0 && k <= |lens|
  {
    if k == 0 then 0 else BlocksOf(lens, bs, k - 1) + DivCeil(lens[k - 1], bs)
  }

  /** New requests whose prompts together fit the free blocks are all granted, and use exactly that. */
  lemma {:induction false} WaveFits(p: Pool, ids: seq<nat>, lens: seq<nat>, k: nat)
    requires p.blockSize > 0 && k <= |ids| == |lens| && NoDup(ids)
    requires forall i :: 0 <= i < |ids| ==> Table(p, ids[i]) == []
    requires BlocksOf(lens, p.blockSize, k) <= |p.free|
    ensures PromptsFit(p, ids, lens, k)
    ensures |GrowPrompts(p, ids, lens, k).free| == |p.free| - BlocksOf(lens, p.blockSize, k)
  {
    hide Fits, Grow, DivCeil, Table;
    if k > 0 {
      WaveFits(p, ids, lens, k - 1);
      GrowPromptsOthers(p, ids, lens, k - 1, ids[k - 1]);
      NewRequestFits(GrowPrompts(p, ids, lens, k - 1), ids[k - 1], lens[k - 1]);
    }
  }

  /** New requests that are all granted had their blocks free. */
  lemma {:induction false} WaveHadBlocks(p: Pool, ids: seq<nat>, lens: seq<nat>, k: nat)
    requires p.blockSize > 0 && k <= |ids| == |lens| && NoDup(ids)
    requires (forall i :: 0 <= i < |ids| ==> Table(p, ids[i]) == []) && PromptsFit(p, ids, lens, k)
    ensures BlocksOf(lens, p.blockSize, k) <= |p.free|
  {
    hide Fits, Grow, DivCeil, PromptsFit, GrowPrompts, Table;
    if k > 0 {
      LastFits(p, ids, lens, k);
      WaveHadBlocks(p, ids, lens, k - 1);
      WaveFits(p, ids, lens, k - 1);
      GrowPromptsOthers(p, ids, lens, k - 1, ids[k - 1]);
      NewRequestHad(GrowPrompts(p, ids, lens, k - 1), ids[k - 1], lens[k - 1]);
    }
  }

  lemma NewRequestHad(q: Pool, id: nat, len: nat)
    requires q.blockSize > 0 && Table(q, id) == [] && Fits(q, id, len)
    ensures DivCeil(len, q.blockSize) <= |q.free|
  {
  }

  lemma {:induction false} WaveTable(p: Pool, ids: seq<nat>, lens: seq<nat>, k: nat, i: nat)
    requires p.blockSize > 0 && i < k <= |ids| == |lens| && NoDup(ids)
    requires Table(p, ids[i]) == [] && PromptsFit(p, ids, lens, k)
    ensures |Table(GrowPrompts(p, ids, lens, k), ids[i])| == DivCeil(lens[i], p.blockSize)
  {
    hide Grow, DivCeil, Fits;
    var q := GrowPrompts(p, ids, lens, k - 1);
    if i < k - 1 {
      LastFits(p, ids, lens, k);
      WaveTable(p, ids, lens, k - 1, i);
      OtherTable(q, ids[k - 1], lens[k - 1], ids[i]);
    } else {
      GrowPromptsOthers(p, ids, lens, i, ids[i]);
      LastFits(p, ids, lens, k);
      GrowFree(q, ids[i], lens[i]);
    }
  }

  lemma NewRequestFits(q: Pool, id: nat, len: nat)
    requires q.blockSize > 0 && Table(q, id) == [] && DivCeil(len, q.blockSize) <= |q.free|
    ensures Fits(q, id, len) && |Grow(q, id, len).free| == |q.free| - DivCeil(len, q.blockSize)
    ensures |Table(Grow(q, id, len), id)| == DivCeil(len, q.blockSize)
  {
  }

  lemma OtherTable(q: Pool, id: nat, len: nat, other: nat)
    requires q.blockSize > 0 && other != id
    ensures Table(Grow(q, id, len), other) == Table(q, other)
  {
  }

  lemma {:induction false} GrowPromptsOthers(p: Pool, ids: seq<nat>, lens: seq<nat>, k: nat, id: nat)
    requires p.blockSize > 0 && k <= |ids| == |lens| && forall i :: 0 <= i < k ==> ids[i] != id
    ensures Table(GrowPrompts(p, ids, lens, k), id) == Table(p, id)
  {
    if k > 0 {
      GrowPromptsOthers(p, ids, lens, k - 1, id);
    }
  }
}
