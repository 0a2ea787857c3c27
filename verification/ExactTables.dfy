/** No block is held for nothing: in every state of every run each running sequence holds exactly the blocks that
    its prompt and its tokens need. */
module ExactTables {
  import opened Prelude
  import opened Decoding
  import opened BlockPool
  import opened PagedCacheRuntime
  import opened DecodeStep
  import opened DecodeSoundness
  import opened PrefillInput
  import opened PagedBatchPrefill
  import opened ContinuousBatch
  import opened DecodePass
  import opened SchedulerPass
  import opened Admission
  import opened BatchRuns
  import opened BlockAccounts
  import opened CapacityRuns
  import opened ContinuousScheduler

  /** The request holds the least number of blocks that `tokens` tokens need. */
  ghost predicate HoldsLeast(p: Pool, id: nat, tokens: nat) {
    LeastBlocks(|Table(p, id)|, tokens, p.blockSize)
  }

  /** What the slot has in the cache: its prompt and its tokens. */
  ghost predicate Exact(p: Pool, s: DecodeSlot) {
    HoldsLeast(p, s.requestId, s.promptLen + |s.generated|)
  }

  lemma GrownHoldsLeast(p: Pool, id: nat, fewer: nat, tokens: nat)
    requires p.blockSize > 0 && fewer <= tokens && HoldsLeast(p, id, fewer) && Fits(p, id, tokens)
    ensures HoldsLeast(Grow(p, id, tokens), id, tokens)
  {
    LeastBlocksIs(|Table(p, id)|, fewer, p.blockSize);
    LeastBlocksIs(DivCeil(tokens, p.blockSize), tokens, p.blockSize);
    DivCeilMonotone(fewer, tokens, p.blockSize);
    hide LeastBlocks;
    GrowExact(p, id, tokens, DivCeil(tokens, p.blockSize));
  }

  lemma TrimmedHoldsLeast(p: Pool, id: nat, fewer: nat, tokens: nat, numBlocks: nat)
    requires Valid(p, numBlocks) && fewer <= tokens && HoldsLeast(p, id, tokens)
    ensures HoldsLeast(Trim(p, id, fewer), id, fewer)
  {
    ValidSize(p, numBlocks);
    hide Valid;
    LeastBlocksIs(|Table(p, id)|, tokens, p.blockSize);
    LeastBlocksIs(DivCeil(fewer, p.blockSize), fewer, p.blockSize);
    DivCeilMonotone(fewer, tokens, p.blockSize);
    hide LeastBlocks;
    TrimExact(p, id, fewer, DivCeil(fewer, p.blockSize), numBlocks);
  }

  // ----- a decode step

  /** The slot's table is as it was, or has grown by what one more token needs. */
  ghost predicate GrownOr(p: Pool, q: Pool, s: DecodeSlot, grown: bool) {
    && q.blockSize == p.blockSize
    && if grown then HoldsLeast(q, s.requestId, TokensAfter(s)) else Table(q, s.requestId) == Table(p, s.requestId)
  }

  lemma GrowTurn(p: Pool, q: Pool, s: DecodeSlot, grown: bool, turn: DecodeSlot)
    requires q.blockSize > 0 && Exact(p, s) && GrownOr(p, q, s, grown)
    requires turn.requestId == s.requestId ==> turn == s && !grown
    ensures var q' := Grow(q, turn.requestId, TokensAfter(turn));
            GrownOr(p, q', s, grown || (turn == s && Fits(q, turn.requestId, TokensAfter(turn))))
  {
    hide LeastBlocks, Fits, Grow;
    GrowsOnly(q, turn.requestId, TokensAfter(turn));
    if turn == s && Fits(q, s.requestId, TokensAfter(s)) {
      GrownHoldsLeast(q, s.requestId, s.promptLen + |s.generated|, TokensAfter(s));
    }
  }

  /** A slot that gets its block holds what it needs for one more token; nobody else's table changes. */
  lemma {:induction false} GrowSelectedExact(p: Pool, slots: seq<DecodeSlot>, sel: seq<nat>, k: nat, i: nat)
    requires p.blockSize > 0 && k <= |sel| && Indexes(sel, |slots|) && NoDup(sel) && DistinctIds(slots) && i < |slots|
    requires Exact(p, slots[i])
    ensures var (q, decodable) := GrowSelected(p, slots, sel, k);
            GrownOr(p, q, slots[i], i in decodable) && (i in decodable ==> i in sel[..k])
  {
    hide GrownOr, Grow, Fits, Exact, NoDup, DistinctIds;
    if k == 0 {
      NotGrown(p, slots[i]);
    } else {
      GrowSelectedExact(p, slots, sel, k - 1, i);
      GrowNext(p, slots, sel, k - 1);
      var (q, decodable) := GrowSelected(p, slots, sel, k - 1);
      NextSelected(sel, k);
      OwnId(slots, sel[k - 1], i);
      GrowTurn(p, q, slots[i], i in decodable, slots[sel[k - 1]]);
    }
  }

  lemma NextSelected(sel: seq<nat>, k: nat)
    requires 0 < k <= |sel| && NoDup(sel)
    ensures sel[..k] == sel[..k - 1] + [sel[k - 1]] && sel[k - 1] !in sel[..k - 1]
  {
  }

  lemma NotGrown(p: Pool, s: DecodeSlot)
    ensures GrownOr(p, p, s, false)
  {
  }

  lemma OwnId(slots: seq<DecodeSlot>, j: nat, i: nat)
    requires DistinctIds(slots) && j < |slots| && i < |slots|
    ensures slots[j].requestId == slots[i].requestId <==> j == i
    ensures slots[j] == slots[i] <==> j == i
  {
    assert j < i || i < j || i == j;
  }

  lemma GrowsOnly(p: Pool, id: nat, tokens: nat)
    requires p.blockSize > 0
    ensures OthersHold(p, Grow(p, id, tokens), id)
    ensures !Fits(p, id, tokens) ==> Grow(p, id, tokens) == p
  {
  }

  /** The slot's table is as it was, or cut to what its tokens need. */
  ghost predicate CutOr(p: Pool, q: Pool, s: DecodeSlot, cut: bool) {
    && q.blockSize == p.blockSize
    && if cut then Exact(q, s) else Table(q, s.requestId) == Table(p, s.requestId)
  }

  lemma NotCut(p: Pool, s: DecodeSlot)
    ensures CutOr(p, p, s, false)
  {
  }

  lemma TrimTurn(p: Pool, q: Pool, s: DecodeSlot, cut: bool, turn: DecodeSlot, numBlocks: nat)
    requires Valid(q, numBlocks) && CutOr(p, q, s, cut)
    requires turn.requestId == s.requestId ==> turn == s && !cut && HoldsLeast(p, s.requestId, TokensAfter(s))
    ensures q.blockSize > 0
    ensures CutOr(p, Trim(q, turn.requestId, turn.promptLen + |turn.generated|), s, cut || turn == s)
  {
    hide LeastBlocks, Valid, Trim;
    TrimsOnly(q, turn.requestId, turn.promptLen + |turn.generated|, numBlocks);
    if turn == s {
      TrimmedHoldsLeast(q, s.requestId, s.promptLen + |s.generated|, TokensAfter(s), numBlocks);
    }
  }

  /** A slot that ends gives back the block it got for nothing. */
  lemma {:induction false} TakeTokensExact(p: Pool, slots: seq<DecodeSlot>, decodable: seq<nat>, eos: seq<Token>,
                                           k: nat, numBlocks: nat, i: nat)
    requires Valid(p, numBlocks) && k <= |decodable| && Indexes(decodable, |slots|) && NoDup(decodable)
    requires DistinctIds(slots) && i < |slots|
    requires i in decodable ==> HoldsLeast(p, slots[i].requestId, TokensAfter(slots[i]))
    ensures CutOr(p, TakeTokens(p, slots, decodable, eos, k).0, slots[i], i in decodable[..k] && slots[i].nextId in eos)
  {
    hide HoldsLeast, Valid, Trim, CutOr;
    if k == 0 {
      NotCut(p, slots[i]);
    } else {
      TakeTokensExact(p, slots, decodable, eos, k - 1, numBlocks, i);
      ValidSize(p, numBlocks);
      TakeTokensSlots(p, slots, decodable, eos, k - 1);
      TakeTokensTables(p, slots, decodable, eos, k - 1, numBlocks);
      var (q, after, _) := TakeTokens(p, slots, decodable, eos, k - 1);
      var j := decodable[k - 1];
      assert decodable[..k] == decodable[..k - 1] + [j] && j !in decodable[..k - 1] && j in decodable;
      if slots[j].nextId in eos {
        OwnId(slots, j, i);
        TrimTurn(p, q, slots[i], i in decodable[..k - 1] && slots[i].nextId in eos, slots[j], numBlocks);
      }
    }
  }

  lemma TrimsOnly(p: Pool, id: nat, tokens: nat, numBlocks: nat)
    requires Valid(p, numBlocks)
    ensures p.blockSize > 0 && OthersHold(p, Trim(p, id, tokens), id)
  {
  }

  /** Whatever a step does to a slot, it holds exactly what it needs afterwards: a slot that is refused keeps what it
      has, one that goes on has room for the token it took, and one that ends gives the spare block back. */
  lemma StepKeepsExact(net: Network, numBlocks: nat, c: Cache, slots: seq<DecodeSlot>, step: nat, maxNew: nat,
                       eos: seq<Token>, i: nat)
    requires ValidCache(c, numBlocks) && DistinctIds(slots) && i < |slots| && Exact(c.pool, slots[i])
    ensures var r := DecodeAtStep(net, numBlocks, c, slots, step, maxNew, eos);
            Exact(r.cache.pool, r.slots[i])
  {
    hide HoldsLeast, BlockPool.Valid, CutOr;
    ValidSize(c.pool, numBlocks);
    if slots != [] && step < maxNew && eos != [] {
      var sel := Forward(slots, step, |slots|);
      ForwardIsSelection(slots, step, |slots|);
      GrowSelectedTables(c.pool, slots, sel, |sel|, numBlocks);
      GrowSelectedExact(c.pool, slots, sel, |sel|, i);
      SelectionDistinct(c, slots, step);
      var (p, decodable) := Decodable(c, slots, step);
      TakeTokensExact(p, slots, decodable, eos, |decodable|, numBlocks, i);
      assert decodable[..|decodable|] == decodable;
      TakenShape(p, slots, decodable, eos, i);
      TakenExact(c.pool, p, slots, decodable, eos, i);
      hide Taken, Decodable, GrowSelected, TakeTokens;
      ForwardKeepsExact(net, numBlocks, c, slots, step, maxNew, eos, i);
    }
  }

  lemma TakenExact(before: Pool, p: Pool, slots: seq<DecodeSlot>, decodable: seq<nat>, eos: seq<Token>, i: nat)
    requires p.blockSize > 0 && Indexes(decodable, |slots|) && NoDup(decodable) && i < |slots|
    requires Exact(before, slots[i]) && GrownOr(before, p, slots[i], i in decodable)
    requires CutOr(p, Taken(p, slots, decodable, eos).0, slots[i], i in decodable && slots[i].nextId in eos)
    ensures Exact(Taken(p, slots, decodable, eos).0, Taken(p, slots, decodable, eos).1[i])
    ensures decodable == [] ==> Exact(p, slots[i])
  {
    hide Taken, LeastBlocks;
    TakenShape(p, slots, decodable, eos, i);
  }

  /** The rest of a step changes neither tables nor tokens. */
  lemma ForwardKeepsExact(net: Network, numBlocks: nat, c: Cache, slots: seq<DecodeSlot>, step: nat, maxNew: nat,
                          eos: seq<Token>, i: nat)
    requires c.pool.blockSize > 0 && slots != [] && step < maxNew && eos != [] && i < |slots|
    requires NoDup(Decodable(c, slots, step).1)
    requires var (p, decodable) := Decodable(c, slots, step);
             && Exact(Taken(p, slots, decodable, eos).0, Taken(p, slots, decodable, eos).1[i])
             && (decodable == [] ==> Exact(p, slots[i]))
    ensures var r := DecodeAtStep(net, numBlocks, c, slots, step, maxNew, eos);
            Exact(r.cache.pool, r.slots[i])
  {
    hide HoldsLeast, Taken, Decodable, ForwardActive;
    var (p, decodable) := Decodable(c, slots, step);
    var (q, taken, active) := Taken(p, slots, decodable, eos);
    if decodable != [] && active != [] {
      ActiveDistinct(p, slots, decodable, eos);
      var next := ForwardActive(net, q, c.kv, taken, active, step, PendingTokens(taken, active)).1;
      AdvancedShape(taken, active, next, i);
    }
  }

  lemma ActiveDistinct(p: Pool, slots: seq<DecodeSlot>, decodable: seq<nat>, eos: seq<Token>)
    requires p.blockSize > 0 && Indexes(decodable, |slots|) && NoDup(decodable)
    ensures NoDup(Taken(p, slots, decodable, eos).2)
  {
    TakeTokensSlots(p, slots, decodable, eos, |decodable|);
  }

  // ----- every phase of a pass

  /** Every running sequence holds exactly what it needs. */
  ghost predicate AllExact(s: Sched) {
    forall i :: 0 <= i < |s.running| && s.running[i].Some? ==> Exact(s.cache.pool, s.running[i].value.slot)
  }

  lemma FreeStepExact(env: Env, s: Sched, i: nat)
    requires WellFormed(env, s) && AllExact(s) && i < |s.running|
    ensures AllExact(FreeStep(s, i))
  {
    hide LeastBlocks;
    var s' := FreeStep(s, i);
    if s' != s {
      ReleasesOnly(s.cache.pool, s.running[i].value.slot.requestId, env.numBlocks);
      forall j | 0 <= j < |s'.running| && s'.running[j].Some?
        ensures Exact(s'.cache.pool, s'.running[j].value.slot)
      {
        assert j < i || i < j;
        assert Exact(s.cache.pool, s.running[j].value.slot);
      }
    }
  }

  lemma ReleasesOnly(p: Pool, id: nat, numBlocks: nat)
    requires Valid(p, numBlocks)
    ensures OthersHold(p, Release(p, id), id)
  {
    ReleaseExact(p, id, numBlocks);
  }

  lemma {:induction false} FreeExact(env: Env, s: Sched, k: nat)
    requires WellFormed(env, s) && AllExact(s) && k <= |s.running|
    ensures AllExact(FreeFinished(s, k))
  {
    hide AllExact, FreeStep, WellFormed;
    if k > 0 {
      FreeExact(env, s, k - 1);
      FreeFinishedKeeps(env, s, k - 1);
      FreeStepExact(env, FreeFinished(s, k - 1), k - 1);
    }
  }

  lemma MarkExact(env: Env, s: Sched)
    requires AllExact(s)
    ensures AllExact(s.(running := MarkSpent(s.running, env.maxNew)))
  {
    hide LeastBlocks;
    var t := s.(running := MarkSpent(s.running, env.maxNew));
    forall i | 0 <= i < |t.running| && t.running[i].Some?
      ensures Exact(t.cache.pool, t.running[i].value.slot)
    {
      assert Exact(s.cache.pool, s.running[i].value.slot);
    }
  }

  lemma GroupPlaceExact(env: Env, s: Sched, step: nat, idxs: seq<nat>, i: nat)
    requires WellFormed(env, s) && AllExact(s) && s.cache.pool.blockSize > 0 && GroupOf(s.running, step, idxs)
    requires i < |s.running|
    ensures var t := GroupStep(env, s, step, idxs).1;
            t.running[i].Some? ==> Exact(t.cache.pool, t.running[i].value.slot)
  {
    hide DecodeAtStep, PutBack, HoldsLeast, BlockPool.Valid;
    var slots, t := BatchOf(s.running, idxs), GroupStep(env, s, step, idxs).1;
    GroupIdsDistinct(env, s, idxs);
    GroupStepShape(env, s, step, idxs, i);
    if i in idxs {
      var d := DecodeAtStep(env.net, env.numBlocks, s.cache, slots, step, env.maxNew, env.eos);
      var k :| 0 <= k < |idxs| && idxs[k] == i && t.running[i] == Some(s.running[i].value.(slot := d.slots[k]));
      assert Exact(s.cache.pool, s.running[i].value.slot);
      StepKeepsExact(env.net, env.numBlocks, s.cache, slots, step, env.maxNew, env.eos, k);
    } else if t.running[i].Some? {
      OutsideGroup(env, s, step, idxs, i);
      SameExact(s.cache.pool, t.cache.pool, s.running[i].value.slot);
    }
  }

  lemma SameExact(p: Pool, q: Pool, s: DecodeSlot)
    requires Exact(p, s) && q.blockSize == p.blockSize && Table(q, s.requestId) == Table(p, s.requestId)
    ensures Exact(q, s)
  {
  }

  lemma OutsideGroup(env: Env, s: Sched, step: nat, idxs: seq<nat>, i: nat)
    requires WellFormed(env, s) && s.cache.pool.blockSize > 0 && GroupOf(s.running, step, idxs)
    requires i < |s.running| && i !in idxs && s.running[i].Some?
    ensures var (p, q, id) :=
              (s.cache.pool, GroupStep(env, s, step, idxs).1.cache.pool, s.running[i].value.slot.requestId);
            q.blockSize == p.blockSize && Table(q, id) == Table(p, id)
  {
    hide DecodeAtStep, PutBack, BlockPool.Valid;
    var slots := BatchOf(s.running, idxs);
    StepPartitions(env.net, env.numBlocks, s.cache, slots, step, env.maxNew, env.eos);
    forall k | 0 <= k < |slots|
      ensures slots[k].requestId != s.running[i].value.slot.requestId
    {
      assert idxs[k] in idxs;
      assert idxs[k] < i || i < idxs[k];
    }
  }

  lemma {:induction false} GroupsExact(env: Env, s: Sched, groups: Groups, k: nat)
    requires s.cache.pool.blockSize > 0 && WellFormed(env, s) && AllExact(s) && k <= |groups|
    ensures AllExact(RunGroups(env, s, groups, k).1)
  {
    hide GroupStep, GroupOf, WellFormed, Exact;
    if k > 0 {
      var (ok, t) := RunGroups(env, s, groups, k - 1);
      GroupsExact(env, s, groups, k - 1);
      GroupsWellFormed(env, s, groups, k - 1);
      if ok && GroupOf(t.running, groups[k - 1].0, groups[k - 1].1) {
        var u := GroupStep(env, t, groups[k - 1].0, groups[k - 1].1).1;
        forall i | 0 <= i < |u.running| && u.running[i].Some?
          ensures Exact(u.cache.pool, u.running[i].value.slot)
        {
          GroupPlaceExact(env, t, groups[k - 1].0, groups[k - 1].1, i);
        }
      }
    }
  }

  lemma DecodeExact(env: Env, s: Sched)
    requires s.cache.pool.blockSize > 0 && WellFormed(env, s) && AllExact(s)
    ensures AllExact(DecodePart(env, s).1)
  {
    hide AllExact, RunGroups, FreeFinished, StepGroups, MarkSpent, WellFormed;
    var s1 := FreeFinished(s, |s.running|);
    FreeExact(env, s, |s.running|);
    FreeFinishedKeeps(env, s, |s.running|);
    GroupsExact(env, s1, StepGroups(s1), |StepGroups(s1)|);
    GroupsWellFormed(env, s1, StepGroups(s1), |StepGroups(s1)|);
    var (ok, s2) := RunGroups(env, s1, StepGroups(s1), |StepGroups(s1)|);
    if ok {
      var s3 := s2.(running := MarkSpent(s2.running, env.maxNew));
      MarkExact(env, s2);
      MarkSpentKeeps(env, s2);
      FreeExact(env, s3, |s3.running|);
    }
  }

  // ----- admission

  lemma EmptyHoldsLeast(p: Pool, id: nat)
    requires Table(p, id) == []
    ensures HoldsLeast(p, id, 0)
  {
  }

  /** Every prompt of a batch that fits gets exactly its blocks. */
  lemma {:induction false} PromptsHoldLeast(p: Pool, ids: seq<nat>, lens: seq<nat>, k: nat, i: nat)
    requires p.blockSize > 0 && i < k <= |ids| == |lens| && NoDup(ids) && PromptsFit(p, ids, lens, k)
    requires Table(p, ids[i]) == []
    ensures HoldsLeast(GrowPrompts(p, ids, lens, k), ids[i], lens[i])
  {
    hide HoldsLeast, Grow, Fits, PromptsFit;
    LastFits(p, ids, lens, k);
    var q := GrowPrompts(p, ids, lens, k - 1);
    GrowsOnly(q, ids[k - 1], lens[k - 1]);
    if i < k - 1 {
      PromptsHoldLeast(p, ids, lens, k - 1, i);
      SameLeast(q, GrowPrompts(p, ids, lens, k), ids[i], lens[i]);
    } else {
      NotYetGrown(p, ids, lens, k - 1);
      EmptyHoldsLeast(q, ids[i]);
      GrownHoldsLeast(q, ids[i], 0, lens[i]);
    }
  }

  lemma SameLeast(p: Pool, q: Pool, id: nat, tokens: nat)
    requires HoldsLeast(p, id, tokens) && q.blockSize == p.blockSize && Table(q, id) == Table(p, id)
    ensures HoldsLeast(q, id, tokens)
  {
  }

  lemma {:induction false} NotYetGrown(p: Pool, ids: seq<nat>, lens: seq<nat>, k: nat)
    requires p.blockSize > 0 && k < |ids| == |lens| && NoDup(ids)
    ensures Table(GrowPrompts(p, ids, lens, k), ids[k]) == Table(p, ids[k])
  {
    UntouchedByPrompts(p, ids, lens, k, ids[k]);
  }

  lemma {:induction false} UntouchedByPrompts(p: Pool, ids: seq<nat>, lens: seq<nat>, k: nat, id: nat)
    requires p.blockSize > 0 && k <= |ids| == |lens| && forall j :: 0 <= j < k ==> ids[j] != id
    ensures Table(GrowPrompts(p, ids, lens, k), id) == Table(p, id)
  {
    hide Grow;
    if k > 0 {
      UntouchedByPrompts(p, ids, lens, k - 1, id);
      GrowsOnly(GrowPrompts(p, ids, lens, k - 1), ids[k - 1], lens[k - 1]);
    }
  }

  /** Prompts that end at once keep exactly their blocks, too. */
  lemma {:induction false} TrimmedPromptsHoldLeast(p: Pool, ids: seq<nat>, lens: seq<nat>, next: seq<Token>,
                                                   eos: seq<Token>, k: nat, i: nat, numBlocks: nat)
    requires Valid(p, numBlocks) && k <= |ids| == |lens| == |next| && NoDup(ids) && i < |ids|
    requires HoldsLeast(p, ids[i], lens[i])
    ensures HoldsLeast(TrimFinished(p, ids, lens, next, eos, k), ids[i], lens[i])
  {
    hide HoldsLeast, Valid, Trim;
    ValidSize(p, numBlocks);
    if k > 0 {
      TrimmedPromptsHoldLeast(p, ids, lens, next, eos, k - 1, i, numBlocks);
      TrimFinishedTables(p, ids, lens, next, eos, k - 1, numBlocks);
      var q := TrimFinished(p, ids, lens, next, eos, k - 1);
      TrimsOnly(q, ids[k - 1], lens[k - 1], numBlocks);
      if i == k - 1 {
        TrimmedHoldsLeast(q, ids[i], lens[i], lens[i], numBlocks);
      } else {
        assert i < k - 1 || k - 1 < i;
        SameLeast(q, Trim(q, ids[k - 1], lens[k - 1]), ids[i], lens[i]);
      }
    }
  }

  /** The newcomers' prompts are grown from the pool, and those that end at once trimmed. */
  lemma WavePool(env: Env, s: Sched, w: nat, s': Sched)
    requires Admits(env, s, w, s')
    ensures var ids, lens := RequestIds(s.nextId, w), WaveLens(env, s, w);
            var next := FirstTokens(env.net, WavePrompts(env, s, w));
            s'.cache.pool == TrimFinished(GrowPrompts(s.cache.pool, ids, lens, w), ids, lens, next, env.eos, w)
  {
    hide TrimFinished, GrowPrompts, PlaceAll, FreePlaces;
  }

  lemma WaveHoldsLeast(p: Pool, ids: seq<nat>, lens: seq<nat>, next: seq<Token>, eos: seq<Token>, numBlocks: nat,
                       j: nat)
    requires Valid(p, numBlocks) && j < |ids| == |lens| == |next| && NoDup(ids)
    requires PromptsFit(p, ids, lens, |ids|) && Table(p, ids[j]) == []
    ensures HoldsLeast(TrimFinished(GrowPrompts(p, ids, lens, |ids|), ids, lens, next, eos, |ids|), ids[j], lens[j])
  {
    hide HoldsLeast, PromptsFit, GrowPrompts, TrimFinished, Valid;
    ValidSize(p, numBlocks);
    PromptsHoldLeast(p, ids, lens, |ids|, j);
    GrowPromptsValid(p, ids, lens, |ids|, numBlocks);
    TrimmedPromptsHoldLeast(GrowPrompts(p, ids, lens, |ids|), ids, lens, next, eos, |ids|, j, numBlocks);
  }

  lemma UnusedId(entry: Pool, base: nat, s: Sched, id: nat)
    requires Accounted(entry, base, s) && Unowned(entry) && s.nextId <= id
    ensures Table(s.cache.pool, id) == []
  {
  }

  lemma NewcomerExact(env: Env, entry: Pool, base: nat, s: Sched, w: nat, s': Sched, j: nat)
    requires WellFormed(env, s) && Accounted(entry, base, s) && Unowned(entry) && Queued(env, s)
    requires w == Wave(env, s) > 0 && Admits(env, s, w, s') && j < w
    ensures HoldsLeast(s'.cache.pool, s.nextId + j, env.lens[Admitted(env, s) + j])
  {
    hide HoldsLeast, PromptsFit, GrowPrompts, TrimFinished, WellFormed, Accounted, Wave, Admits, BlockPool.Valid,
         Unowned, Table;
    var ids, lens, next := RequestIds(s.nextId, w), WaveLens(env, s, w), FirstTokens(env.net, WavePrompts(env, s, w));
    AdmittedWaveFits(env, entry, base, s);
    RequestIdsRange(s.nextId, w);
    assert ids[j] == s.nextId + j && lens[j] == env.lens[Admitted(env, s) + j];
    UnusedId(entry, base, s, ids[j]);
    RunningBelow(env, s);
    WavePool(env, s, w, s');
    WaveHoldsLeast(s.cache.pool, ids, lens, next, env.eos, env.numBlocks, j);
  }

  lemma AdmitExact(env: Env, entry: Pool, base: nat, s: Sched, w: nat, s': Sched)
    requires WellFormed(env, s) && Accounted(entry, base, s) && Unowned(entry) && Queued(env, s)
    requires w == Wave(env, s) > 0 && Admits(env, s, w, s') && AllExact(s)
    ensures AllExact(s')
  {
    hide Exact, WellFormed, Accounted, Wave, Admits, Unowned;
    forall i | 0 <= i < |s'.running| && s'.running[i].Some?
      ensures Exact(s'.cache.pool, s'.running[i].value.slot)
    {
      AdmittedExact(env, entry, base, s, w, s', i);
    }
  }

  lemma AdmittedExact(env: Env, entry: Pool, base: nat, s: Sched, w: nat, s': Sched, i: nat)
    requires WellFormed(env, s) && Accounted(entry, base, s) && Unowned(entry) && Queued(env, s)
    requires w == Wave(env, s) > 0 && Admits(env, s, w, s') && AllExact(s)
    requires i < |s'.running| && s'.running[i].Some?
    ensures Exact(s'.cache.pool, s'.running[i].value.slot)
  {
    hide Prefilled, PlaceAll, FreePlaces, HoldsLeast, WellFormed, Accounted, Wave, Unowned, BlockPool.Valid;
    var next := FirstTokens(env.net, WavePrompts(env, s, w));
    var entries := Entries(Admitted(env, s), s.nextId, WaveLens(env, s, w), next, env.eos);
    var j := PlacedCase(s.running, entries, i);
    if j < w {
      NewcomerExact(env, entry, base, s, w, s', j);
    } else {
      RunningBelow(env, s);
      WaveTables(env, s, w, s', s.running[i].value.slot.requestId);
      AdmitSize(env, s, w, s');
      SameExact(s.cache.pool, s'.cache.pool, s.running[i].value.slot);
    }
  }

  lemma AdmitSize(env: Env, s: Sched, w: nat, s': Sched)
    requires Admits(env, s, w, s')
    ensures s'.cache.pool.blockSize == s.cache.pool.blockSize
  {
    hide TrimFinished, GrowPrompts;
  }

  // ----- runs

  lemma PassExact(env: Env, entry: Pool, base: nat, s: Sched, s': Sched)
    requires WellFormed(env, s) && Accounted(entry, base, s) && Unowned(entry) && AllExact(s) && Pass(env, s, s')
    ensures AllExact(s')
  {
    hide WellFormed, Accounted, DecodePart, Admits, AllExact, Unowned, Wave;
    DecodeExact(env, s);
    DecodeAccounted(env, entry, base, s);
    PassWellFormed(env, s);
    var t := DecodePart(env, s).1;
    if Wave(env, t) > 0 {
      AdmitExact(env, entry, base, t, Wave(env, t), s');
    }
  }

  /** In every state of every run in a pool that nobody else uses, every running sequence holds exactly the blocks
      that its prompt and its tokens need, whoever was refused and whatever was given back on the way. */
  lemma {:induction false} EveryStateExact(env: Env, c: Cache, base: nat, trace: seq<Sched>, i: nat)
    requires ValidCache(c, env.numBlocks) && |env.lens| == |env.prompts| && Unowned(c.pool)
    requires i < |trace| && trace[0] == Start(env, c, base) && BatchRuns.Run(env, trace)
    ensures AllExact(trace[i])
  {
    hide WellFormed, Accounted, Pass, AllExact, ValidCache, Unowned;
    if i == 0 {
      StartExact(env, c, base);
    } else {
      EveryStateExact(env, c, base, trace, i - 1);
      EveryStateAccounted(env, c, base, trace, i - 1);
      assert PassAt(env, trace, i);
      PassExact(env, c.pool, base, trace[i - 1], trace[i]);
    }
  }

  lemma StartExact(env: Env, c: Cache, base: nat)
    ensures AllExact(Start(env, c, base))
  {
  }
}
