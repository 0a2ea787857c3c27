/** Runs in a pool that is large enough: nothing is refused, nothing fails, and every client is served.
    Also what admission control alone guarantees, whatever the size of the pool. */
module CapacityRuns {
  import opened Prelude
  import opened Decoding
  import opened BlockPool
  import opened PagedCacheRuntime
  import opened DecodeStep
  import opened DecodeSoundness
  import opened PrefillInput
  import opened PagedBatchPrefill
  import opened ContinuousBatch
  import opened CapacityBounds
  import opened DecodePass
  import opened SchedulerPass
  import opened PassProgress
  import opened Admission
  import opened BlockAccounts

  /** `limit` blocks serve any client to the end of its budget, the pool has that many for every place,
      and one block more than any prompt needs. */
  ghost predicate Roomy(env: Env, bs: nat, limit: nat)
    requires bs > 0
  {
    && env.eos != [] && env.maxNew > 0 && env.maxSlots > 0
    && |env.lens| == |env.prompts|
    && env.maxSlots * limit <= Capacity(env.numBlocks)
    && forall c :: 0 <= c < |env.lens| ==>
         && env.lens[c] == |env.prompts[c]| > 0
         && DivCeil(env.lens[c] + env.maxNew, bs) <= limit
         && DivCeil(env.lens[c], bs) + 1 <= Capacity(env.numBlocks)
  }

  /** Nobody held blocks at entry. */
  ghost predicate Unowned(entry: Pool) {
    forall id: nat :: Table(entry, id) == []
  }

  lemma HeldByRunning(env: Env, entry: Pool, base: nat, s: Sched)
    requires WellFormed(env, s) && Accounted(entry, base, s) && Unowned(entry)
    ensures HeldOnlyBy(s.cache.pool, RunningIds(s.running)) && NoDup(RunningIds(s.running))
    ensures |RunningIds(s.running)| <= env.maxSlots
    ensures forall i ::
              0 <= i < |s.running| && s.running[i].Some? ==> s.running[i].value.slot.requestId in RunningIds(s.running)
  {
    RunningIdsAre(s.running);
    hide RunningIds;
    forall id: nat | Table(s.cache.pool, id) != []
      ensures id in RunningIds(s.running)
    {
      assert RunsId(s.running, id);
    }
  }

  /** A sound sequence with budget left stays within the limit. */
  lemma WithinLimit(env: Env, bs: nat, limit: nat, p: Pool, kv: seq<Kv>, c: nat, slot: DecodeSlot)
    requires p.blockSize == bs > 0 && Roomy(env, bs, limit) && c < |env.prompts|
    requires Sound(env.net, env.eos, env.maxNew, p, kv, env.prompts[c], slot) && !slot.finished
    requires slot.decodeStep < env.maxNew
    ensures DivCeil(TokensAfter(slot), bs) <= limit
  {
    DivCeilMonotone(TokensAfter(slot), env.lens[c] + env.maxNew, bs);
  }

  // ----- decode passes

  lemma GroupRoomy(env: Env, entry: Pool, base: nat, limit: nat, s: Sched, step: nat, idxs: seq<nat>)
    requires WellFormed(env, s) && Healthy(env, s) && Roomy(env, s.cache.pool.blockSize, limit)
    requires Accounted(entry, base, s) && Unowned(entry) && NoneAbove(s.cache.pool, limit)
    requires GroupOf(s.running, step, idxs) && step < env.maxNew
    ensures !Refuses(s.cache, BatchOf(s.running, idxs), step)
    ensures NoneAbove(GroupStep(env, s, step, idxs).1.cache.pool, limit)
  {
    var slots, ids := BatchOf(s.running, idxs), RunningIds(s.running);
    HeldByRunning(env, entry, base, s);
    hide Sound, DecodeAtStep, RunningIds, Refuses, Accounted;
    forall i | 0 <= i < |slots|
      ensures slots[i].requestId in ids
      ensures DivCeil(TokensAfter(slots[i]), s.cache.pool.blockSize) <= limit
    {
      assert s.running[idxs[i]].Some? && slots[i] == s.running[idxs[i]].value.slot;
      WithinLimit(env, s.cache.pool.blockSize, limit, s.cache.pool, s.cache.kv, s.running[idxs[i]].value.clientIndex,
                  slots[i]);
    }
    GroupInLimit(env, s, step, slots, ids, limit);
  }

  lemma GroupInLimit(env: Env, s: Sched, step: nat, slots: seq<DecodeSlot>, ids: seq<nat>, limit: nat)
    requires ValidCache(s.cache, env.numBlocks) && HeldOnlyBy(s.cache.pool, ids) && NoneAbove(s.cache.pool, limit)
    requires NoDup(ids)
    requires |ids| <= env.maxSlots && env.maxSlots * limit <= Capacity(env.numBlocks) && env.maxSlots > 0
    requires forall i ::
              0 <= i < |slots| ==>
                slots[i].requestId in ids && DivCeil(TokensAfter(slots[i]), s.cache.pool.blockSize) <= limit
    ensures !Refuses(s.cache, slots, step)
    ensures NoneAbove(DecodeAtStep(env.net, env.numBlocks, s.cache, slots, step, env.maxNew, env.eos).cache.pool, limit)
  {
    hide DecodeAtStep, Refuses;
    if env.numBlocks > 0 {
      LimitStep(env.net, env.numBlocks, s.cache, slots, step, env.maxNew, env.eos, ids, limit, env.maxSlots);
    } else {
      ZeroLimit(limit, env.maxSlots);
      if slots != [] {
        DivCeilLeast(TokensAfter(slots[0]), s.cache.pool.blockSize, 0);
        assert false;
      }
      StepOfNobody(env, s.cache, step);
    }
  }

  lemma ZeroLimit(limit: nat, places: nat)
    requires places * limit <= 0 && places > 0
    ensures limit == 0
  {
    if limit > 0 {
      MulMonotone(1, places, limit);
    }
  }

  lemma StepOfNobody(env: Env, c: Cache, step: nat)
    requires c.pool.blockSize > 0
    ensures !Refuses(c, [], step) && DecodeAtStep(env.net, env.numBlocks, c, [], step, env.maxNew, env.eos).cache == c
  {
  }

  lemma BumpsRefuse(c: Cache, slots: seq<DecodeSlot>, step: nat, maxNew: nat, eos: seq<Token>)
    requires c.pool.blockSize > 0 && Bumps(c, slots, step, maxNew, eos)
    ensures Refuses(c, slots, step)
  {
  }

  /** Some slot of the `g`-th group does not get its block when the group runs. */
  ghost predicate RefusesAt(env: Env, s: Sched, groups: Groups, g: nat)
    requires s.cache.pool.blockSize > 0 && g < |groups|
  {
    var (ok, t) := RunGroups(env, s, groups, g);
    ok && GroupOf(t.running, groups[g].0, groups[g].1) && Refuses(t.cache, BatchOf(t.running, groups[g].1), groups[g].0)
  }

  /** Some allocation of the pass is refused. */
  ghost predicate PassRefuses(env: Env, s: Sched) {
    s.cache.pool.blockSize > 0 &&
    var s1 := FreeFinished(s, |s.running|);
    exists g :: 0 <= g < |StepGroups(s1)| && RefusesAt(env, s1, StepGroups(s1), g)
  }

  lemma BumpsAtRefuses(env: Env, s: Sched, groups: Groups, g: nat)
    requires s.cache.pool.blockSize > 0 && g < |groups| && BumpsAt(env, s, groups, g)
    ensures RefusesAt(env, s, groups, g)
  {
    hide Bumps, Refuses;
    var t := RunGroups(env, s, groups, g).1;
    BumpsRefuse(t.cache, BatchOf(t.running, groups[g].1), groups[g].0, env.maxNew, env.eos);
  }

  /** The losing branch needs a refusal. */
  lemma PassBumpsRefuses(env: Env, s: Sched)
    requires PassBumps(env, s)
    ensures PassRefuses(env, s)
  {
    hide BumpsAt, RefusesAt, FreeFinished, StepGroups;
    var s1 := FreeFinished(s, |s.running|);
    var g :| 0 <= g < |StepGroups(s1)| && BumpsAt(env, s1, StepGroups(s1), g);
    BumpsAtRefuses(env, s1, StepGroups(s1), g);
  }

  lemma {:induction false} GroupsRoomy(env: Env, entry: Pool, base: nat, limit: nat, s: Sched, groups: Groups, k: nat)
    requires s.cache.pool.blockSize > 0 && WellFormed(env, s) && Healthy(env, s)
    requires Roomy(env, s.cache.pool.blockSize, limit)
    requires Accounted(entry, base, s) && Unowned(entry) && NoneAbove(s.cache.pool, limit)
    requires Grouping(s.running, groups) && k <= |groups| && forall g :: 0 <= g < |groups| ==> groups[g].0 < env.maxNew
    ensures forall g :: 0 <= g < k ==> !RefusesAt(env, s, groups, g)
    ensures RunGroups(env, s, groups, k).0 && Healthy(env, RunGroups(env, s, groups, k).1)
    ensures NoneAbove(RunGroups(env, s, groups, k).1.cache.pool, limit)
  {
    hide WellFormed, Truthful, Accounted, NoneAbove, Grouping, RefusesAt, Unowned, RunGroups;
    if k > 0 {
      GroupsRoomy(env, entry, base, limit, s, groups, k - 1);
      GroupsAccounted(env, entry, base, s, groups, k - 1);
      NextRoomy(env, entry, base, limit, s, groups, k);
    } else {
      NoGroups(env, s, groups);
    }
  }

  lemma NextRoomy(env: Env, entry: Pool, base: nat, limit: nat, s: Sched, groups: Groups, k: nat)
    requires s.cache.pool.blockSize > 0 && Roomy(env, s.cache.pool.blockSize, limit) && 0 < k <= |groups|
    requires Grouping(s.running, groups) && groups[k - 1].0 < env.maxNew
    requires RunGroups(env, s, groups, k - 1).0 && Healthy(env, RunGroups(env, s, groups, k - 1).1)
    requires Accounted(entry, base, RunGroups(env, s, groups, k - 1).1) && Unowned(entry)
    requires NoneAbove(RunGroups(env, s, groups, k - 1).1.cache.pool, limit)
    ensures !RefusesAt(env, s, groups, k - 1)
    ensures RunGroups(env, s, groups, k).0 && Healthy(env, RunGroups(env, s, groups, k).1)
    ensures NoneAbove(RunGroups(env, s, groups, k).1.cache.pool, limit)
  {
    hide WellFormed, Truthful, Accounted, NoneAbove, Grouping, Refuses, Unowned, GroupStep, BatchOf;
    StillGroup(env, s, groups, k - 1, k - 1);
    var t := RunGroups(env, s, groups, k - 1).1;
    GroupRoomy(env, entry, base, limit, t, groups[k - 1].0, groups[k - 1].1);
    if Bumps(t.cache, BatchOf(t.running, groups[k - 1].1), groups[k - 1].0, env.maxNew, env.eos) {
      BumpsRefuse(t.cache, BatchOf(t.running, groups[k - 1].1), groups[k - 1].0, env.maxNew, env.eos);
    }
    GroupStepHealthy(env, t, groups[k - 1].0, groups[k - 1].1);
  }

  lemma {:induction false} FreeKeepsLimit(s: Sched, k: nat, limit: nat)
    requires k <= |s.running| && NoneAbove(s.cache.pool, limit)
    ensures NoneAbove(FreeFinished(s, k).cache.pool, limit)
  {
    if k > 0 {
      FreeKeepsLimit(s, k - 1, limit);
      var p, q := FreeFinished(s, k - 1).cache.pool, FreeFinished(s, k).cache.pool;
      forall id: nat
        ensures |Table(q, id)| <= limit
      {
        assert |Table(p, id)| <= limit;
      }
    }
  }

  /** In a roomy pool no allocation of a pass is refused, the pass succeeds and stays right. */
  lemma PassRoomy(env: Env, entry: Pool, base: nat, limit: nat, s: Sched)
    requires s.cache.pool.blockSize > 0 && WellFormed(env, s) && Healthy(env, s)
    requires Roomy(env, s.cache.pool.blockSize, limit)
    requires Accounted(entry, base, s) && Unowned(entry) && NoneAbove(s.cache.pool, limit) && StepsBelow(env, s)
    ensures !PassRefuses(env, s) && !PassBumps(env, s)
    ensures DecodePart(env, s).0 && Healthy(env, DecodePart(env, s).1)
    ensures NoneAbove(DecodePart(env, s).1.cache.pool, limit)
  {
    FreeFinishedAt(s, |s.running|);
    hide WellFormed, Truthful, Accounted, NoneAbove, RunGroups, FreeFinished, StepGroups, RefusesAt, Unowned, BumpsAt;
    var s1 := FreeFinished(s, |s.running|);
    FreeAccounted(env, entry, base, s, |s.running|);
    FreeFinishedKeeps(env, s, |s.running|);
    FreeKeepsLimit(s, |s.running|, limit);
    StepGroupsGroup(s1);
    StepGroupsBelow(env, s1);
    GroupsRoomy(env, entry, base, limit, s1, StepGroups(s1), |StepGroups(s1)|);
    var s2 := RunGroups(env, s1, StepGroups(s1), |StepGroups(s1)|).1;
    if PassBumps(env, s) {
      PassBumpsRefuses(env, s);
      assert false;
    }
    PassHealthy(env, s);
    FreeKeepsLimit(s2.(running := MarkSpent(s2.running, env.maxNew)), |s2.running|, limit);
  }

  // ----- admission

  lemma HeldNow(env: Env, entry: Pool, base: nat, s: Sched)
    requires WellFormed(env, s) && Accounted(entry, base, s) && Unowned(entry)
    ensures |s.cache.pool.free| + Held(s.cache.pool, RunningIds(s.running)) == Capacity(env.numBlocks)
    ensures forall id: nat :: s.nextId <= id ==> Table(s.cache.pool, id) == []
  {
    HeldByRunning(env, entry, base, s);
    hide RunningIds;
    Conservation(s.cache.pool, RunningIds(s.running), env.numBlocks);
  }

  lemma {:induction false} BlocksOfPrefix(lens: seq<nat>, bs: nat, n: nat, k: nat)
    requires bs > 0 && k <= n <= |lens|
    ensures BlocksOf(lens[..n], bs, k) == BlocksOf(lens, bs, k)
  {
    if k > 0 {
      BlocksOfPrefix(lens, bs, n, k - 1);
    }
  }

  /** The blocks of an admitted wave are free, with one more left for every running sequence. */
  lemma WaveHasBlocks(env: Env, entry: Pool, base: nat, s: Sched)
    requires WellFormed(env, s) && Accounted(entry, base, s) && Unowned(entry) && Queued(env, s)
    requires Wave(env, s) > 0
    ensures BlocksOf(WaveLens(env, s, Wave(env, s)), s.cache.pool.blockSize, Wave(env, s)) + |RunningIds(s.running)| +
              Wave(env, s) <= |s.cache.pool.free|
  {
    HeldNow(env, entry, base, s);
    var lens, w := env.lens[Admitted(env, s)..], Wave(env, s);
    hide WellFormed, Accounted, RunningIds, Held, DivCeil;
    WaveIsGreedy(lens, s.cache.pool.blockSize, Held(s.cache.pool, RunningIds(s.running)), |RunningIds(s.running)|,
                 |FreePlaces(s.running, |s.running|)|, Capacity(env.numBlocks), 0);
    assert MayAdmit(lens, s.cache.pool.blockSize, Held(s.cache.pool, RunningIds(s.running)), |RunningIds(s.running)|,
                    Capacity(env.numBlocks), w - 1);
    assert WaveLens(env, s, w) == lens[..w];
    BlocksOfPrefix(lens, s.cache.pool.blockSize, w, w);
  }

  /** What admission control is for: the prefill of a wave it accepts is never refused a block, and
      leaves a free block for every running sequence. */
  lemma AdmittedWaveFits(env: Env, entry: Pool, base: nat, s: Sched)
    requires WellFormed(env, s) && Accounted(entry, base, s) && Unowned(entry) && Queued(env, s)
    requires Wave(env, s) > 0
    ensures var w := Wave(env, s);
            var ids, lens := RequestIds(s.nextId, w), WaveLens(env, s, w);
            && PromptsFit(s.cache.pool, ids, lens, w)
            && |GrowPrompts(s.cache.pool, ids, lens, w).free| >= |RunningIds(s.running)| + w
  {
    var w := Wave(env, s);
    var ids, lens := RequestIds(s.nextId, w), WaveLens(env, s, w);
    WaveHasBlocks(env, entry, base, s);
    HeldNow(env, entry, base, s);
    RequestIdsRange(s.nextId, w);
    hide WellFormed, Accounted, RunningIds, Held, Wave;
    assert forall i :: 0 <= i < w ==> ids[i] == s.nextId + i;
    WaveFits(s.cache.pool, ids, lens, w);
  }

  /** The next `n` waiting clients can be prefilled, and a free block is left for every running sequence. */
  ghost predicate LeavesHeadroom(env: Env, s: Sched, n: nat)
    requires Queued(env, s) && n <= |s.waiting|
  {
    var ids, lens := RequestIds(s.nextId, n), WaveLens(env, s, n);
    && PromptsFit(s.cache.pool, ids, lens, n)
    && |GrowPrompts(s.cache.pool, ids, lens, n).free| >= |RunningIds(s.running)| + n
  }

  /** Admission is exact: among the clients there are places for, it takes as many as can be prefilled with a free
      block left for every running sequence, and never fewer. */
  lemma WaveIsExact(env: Env, entry: Pool, base: nat, s: Sched, n: nat)
    requires WellFormed(env, s) && Accounted(entry, base, s) && Unowned(entry) && Queued(env, s)
    requires 0 < n <= |s.waiting| && n <= |FreePlaces(s.running, |s.running|)|
    ensures n <= Wave(env, s) <==> LeavesHeadroom(env, s, n)
  {
    hide WellFormed, Accounted, Unowned, RunningIds, Held, LeavesHeadroom, MayAdmit, FreePlaces, Wave, PromptsFit;
    HeadroomIs(env, entry, base, s, n);
    AdmitsWhile(env, s, n);
  }

  /** The condition under which the `n`-th waiting client is admitted. */
  predicate NthMayGo(env: Env, s: Sched, n: nat)
    requires Queued(env, s) && 0 < n <= |s.waiting|
  {
    MayAdmit(env.lens[Admitted(env, s)..], s.cache.pool.blockSize, Held(s.cache.pool, RunningIds(s.running)),
             |RunningIds(s.running)|, Capacity(env.numBlocks), n - 1)
  }

  lemma AdmitsWhile(env: Env, s: Sched, n: nat)
    requires Queued(env, s) && 0 < n <= |s.waiting| && n <= |FreePlaces(s.running, |s.running|)|
    ensures n <= Wave(env, s) <==> NthMayGo(env, s, n)
  {
    hide RunningIds, Held, MayAdmit, FreePlaces;
    var lens, bs := env.lens[Admitted(env, s)..], s.cache.pool.blockSize;
    var used, running := Held(s.cache.pool, RunningIds(s.running)), |RunningIds(s.running)|;
    var w := Wave(env, s);
    WaveIsGreedy(lens, bs, used, running, |FreePlaces(s.running, |s.running|)|, Capacity(env.numBlocks), 0);
    if w < n && MayAdmit(lens, bs, used, running, Capacity(env.numBlocks), n - 1) {
      LaterNeedsMore(lens, bs, used, running, Capacity(env.numBlocks), w, n - 1);
    }
  }

  lemma HeadroomIs(env: Env, entry: Pool, base: nat, s: Sched, n: nat)
    requires WellFormed(env, s) && Accounted(entry, base, s) && Unowned(entry) && Queued(env, s) && 0 < n <= |s.waiting|
    ensures LeavesHeadroom(env, s, n) <==> NthMayGo(env, s, n)
  {
    hide WellFormed, Accounted, Unowned, RunningIds, Held, PromptsFit, GrowPrompts, BlocksOf, DivCeil, Table;
    HeldNow(env, entry, base, s);
    RequestIdsRange(s.nextId, n);
    var ids, lens, p := RequestIds(s.nextId, n), WaveLens(env, s, n), s.cache.pool;
    assert forall i :: 0 <= i < n ==> ids[i] == s.nextId + i;
    GrantedIff(p, ids, lens);
    NthNeeds(env.lens[Admitted(env, s)..], p.blockSize, n);
    assert lens == env.lens[Admitted(env, s)..][..n];
  }

  lemma GrantedIff(p: Pool, ids: seq<nat>, lens: seq<nat>)
    requires p.blockSize > 0 && |ids| == |lens| && NoDup(ids) && forall i :: 0 <= i < |ids| ==> Table(p, ids[i]) == []
    ensures PromptsFit(p, ids, lens, |ids|) <==> BlocksOf(lens, p.blockSize, |ids|) <= |p.free|
    ensures PromptsFit(p, ids, lens, |ids|) ==>
              |GrowPrompts(p, ids, lens, |ids|).free| == |p.free| - BlocksOf(lens, p.blockSize, |ids|)
  {
    hide PromptsFit, GrowPrompts, BlocksOf, Table;
    if PromptsFit(p, ids, lens, |ids|) {
      WaveHadBlocks(p, ids, lens, |ids|);
    }
    if BlocksOf(lens, p.blockSize, |ids|) <= |p.free| {
      WaveFits(p, ids, lens, |ids|);
    }
  }

  lemma NthNeeds(lens: seq<nat>, bs: nat, n: nat)
    requires bs > 0 && 0 < n <= |lens|
    ensures BlocksOf(lens[..n], bs, n) == BlocksOf(lens, bs, n - 1) + DivCeil(lens[n - 1], bs)
  {
    hide DivCeil;
    BlocksOfPrefix(lens, bs, n, n);
  }

  lemma {:induction false} LaterNeedsMore(lens: seq<nat>, bs: nat, used: nat, running: nat, capacity: nat, j: nat,
                                          k: nat)
    requires bs > 0 && j <= k < |lens| && MayAdmit(lens, bs, used, running, capacity, k)
    ensures MayAdmit(lens, bs, used, running, capacity, j)
    decreases k
  {
    hide DivCeil;
    if j < k {
      LaterNeedsMore(lens, bs, used, running, capacity, j, k - 1);
    }
  }

  lemma {:induction false} TrimFinishedFree(p: Pool, ids: seq<nat>, lens: seq<nat>, next: seq<Token>, eos: seq<Token>,
                                            k: nat, numBlocks: nat)
    requires Valid(p, numBlocks) && k <= |ids| == |lens| == |next| && NoDup(ids)
    ensures |TrimFinished(p, ids, lens, next, eos, k).free| >= |p.free|
  {
    if k > 0 {
      hide BlockPool.Valid;
      TrimFinishedFree(p, ids, lens, next, eos, k - 1, numBlocks);
      TrimFinishedTables(p, ids, lens, next, eos, k - 1, numBlocks);
      TrimFree(TrimFinished(p, ids, lens, next, eos, k - 1), ids[k - 1], lens[k - 1], numBlocks);
    }
  }

  lemma {:induction false} PlacedCount(running: seq<Option<RunningSlot>>, places: seq<nat>, entries: seq<RunningSlot>,
                                       k: nat)
    requires k <= |entries| <= |places| && Indexes(places, |running|) && NoDup(places)
    requires forall j :: 0 <= j < |places| ==> running[places[j]].None?
    ensures |RunningIds(PlaceAll(running, places, entries, k))| == |RunningIds(running)| + k
  {
    if k > 0 {
      PlacedCount(running, places, entries, k - 1);
      PlacedAt(running, places, entries, k - 1);
      assert places[k - 1] !in places[..k - 1];
      CountUpdate(PlaceAll(running, places, entries, k - 1), places[k - 1], entries[k - 1]);
    }
  }

  lemma {:induction false} CountUpdate(running: seq<Option<RunningSlot>>, i: nat, entry: RunningSlot)
    requires i < |running| && running[i].None?
    ensures |RunningIds(running[i := Some(entry)])| == |RunningIds(running)| + 1
  {
    var k := |running| - 1;
    var after := running[i := Some(entry)];
    if i < k {
      CountUpdate(running[..k], i, entry);
      assert after[..k] == running[..k][i := Some(entry)];
    } else {
      assert after[..k] == running[..k];
    }
  }

  ghost predicate Headroom(s: Sched) {
    |RunningIds(s.running)| <= |s.cache.pool.free|
  }

  lemma WaveCount(env: Env, s: Sched, w: nat, s': Sched)
    requires Admits(env, s, w, s')
    ensures |RunningIds(s'.running)| == |RunningIds(s.running)| + w
  {
    var places := FreePlaces(s.running, |s.running|);
    var entries :=
      Entries(Admitted(env, s), s.nextId, WaveLens(env, s, w), FirstTokens(env.net, WavePrompts(env, s, w)), env.eos);
    hide Prefilled, FreePlaces, PlaceAll, RunningIds;
    PlacesEmpty(s.running);
    PlacedCount(s.running, places, entries, w);
  }

  /** After an admission there is a free block for every running sequence. */
  lemma AdmitHeadroom(env: Env, entry: Pool, base: nat, s: Sched, s': Sched)
    requires WellFormed(env, s) && Accounted(entry, base, s) && Unowned(entry) && Queued(env, s)
    requires Wave(env, s) > 0 && Admits(env, s, Wave(env, s), s')
    ensures Headroom(s')
  {
    var w := Wave(env, s);
    var ids, lens, next := RequestIds(s.nextId, w), WaveLens(env, s, w), FirstTokens(env.net, WavePrompts(env, s, w));
    AdmittedWaveFits(env, entry, base, s);
    WaveCount(env, s, w, s');
    RequestIdsRange(s.nextId, w);
    hide Accounted, RunningIds, Held, Wave, TrimFinished, GrowPrompts, PlaceAll, FreePlaces, PromptsFit;
    GrowPromptsValid(s.cache.pool, ids, lens, w, env.numBlocks);
    TrimFinishedFree(GrowPrompts(s.cache.pool, ids, lens, w), ids, lens, next, env.eos, w, env.numBlocks);
  }

  // ----- the pass after an admission

  /** Places the first `k` groups take care of. */
  ghost function Covered(groups: Groups, k: nat): set<nat>
    requires k <= |groups|
  {
    if k == 0 then {} else Covered(groups, k - 1) + Elements(groups[k - 1].1)
  }

  lemma {:induction false} CoveredRuns(s: Sched, groups: Groups, k: nat)
    requires Grouping(s.running, groups) && k <= |groups|
    ensures forall i: nat :: i in Covered(groups, k) ==> i < |s.running| && s.running[i].Some?
    ensures forall i: nat, g :: k <= g < |groups| && i in groups[g].1 ==> i !in Covered(groups, k)
  {
    if k > 0 {
      CoveredRuns(s, groups, k - 1);
      assert GroupOf(s.running, groups[k - 1].0, groups[k - 1].1);
      forall i: nat | i in Elements(groups[k - 1].1)
        ensures i < |s.running| && s.running[i].Some?
      {
        var j :| 0 <= j < |groups[k - 1].1| && groups[k - 1].1[j] == i;
      }
    }
  }

  lemma {:induction false} RunningCount(running: seq<Option<RunningSlot>>, places: set<nat>)
    requires forall i: nat :: i in places ==> i < |running| && running[i].Some?
    ensures |places| <= |RunningIds(running)|
  {
    if running == [] {
      assert places == {};
    } else {
      var k := |running| - 1;
      var rest := places - {k};
      forall i: nat | i in rest
        ensures i < k && running[..k][i].Some?
      {
      }
      RunningCount(running[..k], rest);
    }
  }

  /** The groups together need no more blocks than there are running sequences. */
  lemma GroupsShare(s: Sched, groups: Groups, k: nat)
    requires Grouping(s.running, groups) && 0 < k <= |groups|
    ensures |Covered(groups, k)| == |Covered(groups, k - 1)| + |groups[k - 1].1|
    ensures |Covered(groups, k)| <= |RunningIds(s.running)|
  {
    CoveredRuns(s, groups, k - 1);
    CoveredRuns(s, groups, k);
    assert GroupOf(s.running, groups[k - 1].0, groups[k - 1].1);
    NoDupSetSize(groups[k - 1].1);
    assert Covered(groups, k - 1) !! Elements(groups[k - 1].1);
    RunningCount(s.running, Covered(groups, k));
  }

  lemma {:induction false} GroupsHeadroom(env: Env, s: Sched, groups: Groups, k: nat)
    requires s.cache.pool.blockSize > 0 && Healthy(env, s) && env.eos != [] && Headroom(s)
    requires Grouping(s.running, groups) && k <= |groups|
    ensures forall g :: 0 <= g < k ==> !RefusesAt(env, s, groups, g)
    ensures RunGroups(env, s, groups, k).0 && Healthy(env, RunGroups(env, s, groups, k).1)
    ensures |RunGroups(env, s, groups, k).1.cache.pool.free| + |Covered(groups, k)| >= |RunningIds(s.running)|
  {
    hide Healthy, Grouping, RefusesAt, RunGroups, RunningIds;
    if k > 0 {
      GroupsHeadroom(env, s, groups, k - 1);
      GroupsShare(s, groups, k);
      NextHeadroom(env, s, groups, k);
    } else {
      NoGroups(env, s, groups);
    }
  }

  lemma NextHeadroom(env: Env, s: Sched, groups: Groups, k: nat)
    requires s.cache.pool.blockSize > 0 && env.eos != [] && 0 < k <= |groups| && Grouping(s.running, groups)
    requires RunGroups(env, s, groups, k - 1).0 && Healthy(env, RunGroups(env, s, groups, k - 1).1)
    requires |groups[k - 1].1| <= |RunGroups(env, s, groups, k - 1).1.cache.pool.free|
    ensures !RefusesAt(env, s, groups, k - 1)
    ensures RunGroups(env, s, groups, k).0 && Healthy(env, RunGroups(env, s, groups, k).1)
    ensures |RunGroups(env, s, groups, k).1.cache.pool.free| +
              |groups[k - 1].1| >= |RunGroups(env, s, groups, k - 1).1.cache.pool.free|
  {
    hide WellFormed, Truthful, Grouping, Refuses, GroupStep, BatchOf;
    StillGroup(env, s, groups, k - 1, k - 1);
    var t := RunGroups(env, s, groups, k - 1).1;
    GroupHeadroom(env, t, groups[k - 1].0, groups[k - 1].1);
    if Bumps(t.cache, BatchOf(t.running, groups[k - 1].1), groups[k - 1].0, env.maxNew, env.eos) {
      BumpsRefuse(t.cache, BatchOf(t.running, groups[k - 1].1), groups[k - 1].0, env.maxNew, env.eos);
    }
    GroupStepHealthy(env, t, groups[k - 1].0, groups[k - 1].1);
  }

  lemma GroupHeadroom(env: Env, s: Sched, step: nat, idxs: seq<nat>)
    requires s.cache.pool.blockSize > 0 && Healthy(env, s) && GroupOf(s.running, step, idxs) && env.eos != []
    requires |idxs| <= |s.cache.pool.free|
    ensures !Refuses(s.cache, BatchOf(s.running, idxs), step)
    ensures |GroupStep(env, s, step, idxs).1.cache.pool.free| + |idxs| >= |s.cache.pool.free|
  {
    GroupIsStepInput(env, s, step, idxs);
    hide StepInput, DecodeAtStep, Refuses, WellFormed, Truthful;
    HeadroomStep(env.net, env.numBlocks, s.cache, BatchOf(s.running, idxs), step, env.maxNew, env.eos,
                 GroupPrompts(env, s.running, idxs));
  }

  lemma {:induction false} FreeKeepsHeadroom(env: Env, s: Sched, k: nat)
    requires WellFormed(env, s) && k <= |s.running| && Headroom(s)
    ensures Headroom(FreeFinished(s, k))
  {
    if k > 0 {
      FreeKeepsHeadroom(env, s, k - 1);
      FreeFinishedKeeps(env, s, k - 1);
      hide FreeFinished, RunningIds;
      FreeStepHeadroom(env, FreeFinished(s, k - 1), k - 1);
    }
  }

  lemma FreeStepHeadroom(env: Env, s: Sched, i: nat)
    requires WellFormed(env, s) && i < |s.running| && Headroom(s)
    ensures Headroom(FreeStep(s, i))
  {
    var s' := FreeStep(s, i);
    if s' != s {
      ReleaseValid(s.cache.pool, s.running[i].value.slot.requestId, env.numBlocks);
      CountUpdate(s'.running, i, s.running[i].value);
      assert s'.running[i := s.running[i]] == s.running;
    }
  }

  /** With a free block for every running sequence no allocation of the next decode pass is refused. */
  lemma HeadroomPass(env: Env, s: Sched)
    requires s.cache.pool.blockSize > 0 && WellFormed(env, s) && Healthy(env, s) && env.eos != [] && Headroom(s)
    ensures !PassRefuses(env, s) && DecodePart(env, s).0 && Healthy(env, DecodePart(env, s).1)
  {
    hide WellFormed, Truthful, RunGroups, FreeFinished, StepGroups, RefusesAt, BumpsAt, RunningIds;
    FreeFinishedKeeps(env, s, |s.running|);
    FreeKeepsHeadroom(env, s, |s.running|);
    var s1 := FreeFinished(s, |s.running|);
    StepGroupsGroup(s1);
    GroupsHeadroom(env, s1, StepGroups(s1), |StepGroups(s1)|);
    if PassBumps(env, s) {
      PassBumpsRefuses(env, s);
      assert false;
    }
    PassHealthy(env, s);
  }
}
