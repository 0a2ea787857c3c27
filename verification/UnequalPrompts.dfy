/** A run that takes the losing branch: two prompts of unequal length in a pool that can serve either of them to
    its end, but not both at once. The shorter one is refused its third block in the very step in which the
    longer one ends, and comes out one token short. */
module UnequalPrompts {
  import opened Prelude
  import opened Decoding
  import opened BlockPool
  import opened SlotMapping
  import opened PagedKvCache
  import opened PagedCacheRuntime
  import opened DecodeStep
  import opened DecodeSoundness
  import opened PrefillInput
  import opened PagedBatchPrefill
  import opened ContinuousBatch
  import opened CapacityBounds
  import opened DecodePass
  import opened SchedulerPass
  import opened PassProgress
  import opened Admission
  import opened BatchRuns
  import opened BlockAccounts
  import opened CapacityRuns
  import opened ServedRuns
  import opened WaveInput
  import opened BatchScheduler
  import opened ContinuousScheduler
  import opened RoomNeeded
  import opened OnePlace

  /** A network that ends every sequence after eighteen entries. */
  ghost predicate EndsAtEighteen(net: Network) {
    forall entries :: net.head(entries) == if |entries| == 18 then 0 else 1
  }

  ghost predicate Unequal(env: Env) {
    && EndsAtEighteen(env.net) && env.eos == [0] && env.maxNew == 9
    && env.lens == [8, 10] && |env.prompts| == 2 && |env.prompts[0]| == 8 && |env.prompts[1]| == 10
    && env.numBlocks == 6 && env.maxSlots == 2
  }

  /** The slot of a client after `k` steps. */
  ghost predicate SlotAfter(p: Pool, o: Option<RunningSlot>, client: nat, len: nat, k: nat)
    requires p.blockSize > 0
  {
    && o.Some? && o.value.clientIndex == client
    && var s := o.value.slot;
    && !s.finished && s.promptLen == len && |s.generated| == s.decodeStep == k
    && s.nextId == (if len + k == 18 then 0 else 1)
    && |Table(p, s.requestId)| == DivCeil(len + k, p.blockSize)
  }

  /** Both clients run, and have taken `k` steps together. */
  ghost predicate Together(env: Env, s: Sched, k: nat) {
    && Healthy(env, s) && s.cache.pool.blockSize == 8
    && s.waiting == [] && |s.running| == 2
    && SlotAfter(s.cache.pool, s.running[0], 0, 8, k)
    && SlotAfter(s.cache.pool, s.running[1], 1, 10, k)
    && |s.cache.pool.free| == 5 - DivCeil(8 + k, 8) - DivCeil(10 + k, 8)
  }

  // ----- one group of two

  lemma TogetherGroups(env: Env, s: Sched, k: nat)
    requires Together(env, s, k)
    ensures FreeFinished(s, 2) == s && StepGroups(s) == [(k, [0, 1])] && GroupOf(s.running, k, [0, 1])
    ensures RunGroups(env, s, StepGroups(s), 1) == GroupStep(env, s, k, [0, 1])
  {
    hide Healthy, FreeFinished, DivCeil, GroupStep, Table;
    FreeFinishedAt(s, 2);
    assert Active(s.running, 1) == [(0, k)];
    assert Active(s.running, 2) == [(0, k), (1, k)];
    OneStep([(0, k), (1, k)], k);
    assert RunGroups(env, s, StepGroups(s), 0) == (true, s);
  }

  lemma OneStep(active: seq<(nat, nat)>, k: nat)
    requires active == [(0, k), (1, k)]
    ensures GroupsOf(active) == [(k, [0, 1])]
  {
    assert active[..1] == [(0, k)] && active[..1][..0] == [];
    assert IndicesWith(active[..1], k) == [0];
    assert IndicesWith(active, k) == [0, 1];
    assert Steps(active) == {k} by {
      assert active[0].1 == k;
    }
    assert {k} - {Least({k})} == {};
    assert Ascending({k}) == [k];
  }

  /** Two slots that are both granted their block and both give a token. */
  lemma BothAdvance(env: Env, c: Cache, slots: seq<DecodeSlot>, step: nat, prompts: seq<seq<Item>>)
    requires c.pool.blockSize > 0 && StepInput(env.net, env.numBlocks, c, slots, step, env.maxNew, env.eos, prompts)
    requires step < env.maxNew
    requires |slots| == 2 && TakesPart(slots[0], step) && TakesPart(slots[1], step) && slots[0].nextId !in env.eos
    requires slots[1].nextId !in env.eos
    requires Fits(c.pool, slots[0].requestId, TokensAfter(slots[0]))
    requires var p := Grow(c.pool, slots[0].requestId, TokensAfter(slots[0])); Fits(p, slots[1].requestId,
                                                                                    TokensAfter(slots[1]))
    ensures !Bumps(c, slots, step, env.maxNew, env.eos)
    ensures var r := DecodeAtStep(env.net, env.numBlocks, c, slots, step, env.maxNew, env.eos);
            && r.ok
            && r.cache.pool ==
              Grow(Grow(c.pool, slots[0].requestId, TokensAfter(slots[0])), slots[1].requestId, TokensAfter(slots[1]))
            && forall i ::
                 0 <= i < 2 ==>
                   r.slots[i] ==
                     slots[i].(generated := slots[i].generated + [slots[i].nextId], decodeStep := step + 1,
                               nextId := r.slots[i].nextId)
  {
    BothGrow(c, slots, step);
    var (p, decodable) := Decodable(c, slots, step);
    NobodyEnds(p, slots, decodable, env.eos, 2);
    TakeTokensSlots(p, slots, decodable, env.eos, 2);
    hide Decodable, Taken, Fits, Grow, StepInput, Bumps, DecodeAtStep;
    NoBumpYet(c, slots, step, env.maxNew, env.eos);
    StepRightIff(env.net, env.numBlocks, c, slots, step, env.maxNew, env.eos, prompts);
    BothForward(env, c, slots, step, p);
  }

  lemma NoBumpYet(c: Cache, slots: seq<DecodeSlot>, step: nat, maxNew: nat, eos: seq<Token>)
    requires c.pool.blockSize > 0 && Decodable(c, slots, step).1 == [0, 1] && |slots| == 2 && slots[0].nextId !in eos
    ensures !Bumps(c, slots, step, maxNew, eos)
  {
    assert 0 in Decodable(c, slots, step).1;
  }

  lemma BothForward(env: Env, c: Cache, slots: seq<DecodeSlot>, step: nat, p: Pool)
    requires c.pool.blockSize > 0 && |slots| == 2 && step < env.maxNew && env.eos != []
    requires Decodable(c, slots, step) == (p, [0, 1])
    requires slots[0].decodeStep == slots[1].decodeStep == step && slots[0].nextId !in env.eos
    requires slots[1].nextId !in env.eos
    requires DecodeAtStep(env.net, env.numBlocks, c, slots, step, env.maxNew, env.eos).ok
    ensures var r := DecodeAtStep(env.net, env.numBlocks, c, slots, step, env.maxNew, env.eos);
            && r.cache.pool == p
            && forall i ::
                 0 <= i < 2 ==>
                   r.slots[i] ==
                     slots[i].(generated := slots[i].generated + [slots[i].nextId], decodeStep := step + 1,
                               nextId := r.slots[i].nextId)
  {
    var decodable := [0, 1];
    NobodyEnds(p, slots, decodable, env.eos, 2);
    TakeTokensSlots(p, slots, decodable, env.eos, 2);
    assert decodable[..2] == decodable;
    hide Decodable, TakeTokens, ForwardActive, DecodeStepOk;
    var (q, taken, active) := Taken(p, slots, decodable, env.eos);
    var next := ForwardActive(env.net, q, c.kv, taken, active, step, PendingTokens(taken, active)).1;
    AdvanceSlots(taken, active, next, 2);
    assert active[0] == 0 && active[1] == 1;
  }

  lemma BothGrow(c: Cache, slots: seq<DecodeSlot>, step: nat)
    requires c.pool.blockSize > 0 && |slots| == 2 && TakesPart(slots[0], step) && TakesPart(slots[1], step)
    requires Fits(c.pool, slots[0].requestId, TokensAfter(slots[0]))
    requires var p := Grow(c.pool, slots[0].requestId, TokensAfter(slots[0])); Fits(p, slots[1].requestId,
                                                                                    TokensAfter(slots[1]))
    ensures Decodable(c, slots, step) ==
              (Grow(Grow(c.pool, slots[0].requestId, TokensAfter(slots[0])), slots[1].requestId, TokensAfter(slots[1])),
               [0, 1])
  {
    hide Fits, Grow;
    BothSelected(slots, step);
    var sel := Forward(slots, step, 2);
    NobodyGrown(c.pool, slots, sel);
    GrowNext(c.pool, slots, sel, 0);
    GrowNext(c.pool, slots, sel, 1);
    assert [] + [sel[0]] == [0] && [0] + [sel[1]] == [0, 1];
  }

  lemma BothSelected(slots: seq<DecodeSlot>, step: nat)
    requires |slots| == 2 && TakesPart(slots[0], step) && TakesPart(slots[1], step)
    ensures Forward(slots, step, 2) == [0, 1]
  {
    assert Forward(slots, step, 0) == [];
    assert Forward(slots, step, 1) == [0];
  }

  lemma {:induction false} NobodyEnds(p: Pool, slots: seq<DecodeSlot>, decodable: seq<nat>, eos: seq<Token>, k: nat)
    requires p.blockSize > 0 && k <= |decodable| && Indexes(decodable, |slots|) && NoDup(decodable)
    requires forall j :: 0 <= j < |decodable| ==> slots[decodable[j]].nextId !in eos
    ensures TakeTokens(p, slots, decodable, eos, k).0 == p
    ensures TakeTokens(p, slots, decodable, eos, k).2 == decodable[..k]
  {
    hide Trim;
    if k > 0 {
      NobodyEnds(p, slots, decodable, eos, k - 1);
      NotTakenYet(p, slots, decodable, eos, k - 1);
      assert decodable[..k] == decodable[..k - 1] + [decodable[k - 1]];
    }
  }

  lemma NotTakenYet(p: Pool, slots: seq<DecodeSlot>, decodable: seq<nat>, eos: seq<Token>, k: nat)
    requires p.blockSize > 0 && k < |decodable| && Indexes(decodable, |slots|) && NoDup(decodable)
    ensures TakeTokens(p, slots, decodable, eos, k).1[decodable[k]] == slots[decodable[k]]
  {
    hide TakeTokens;
    TakeTokensSlots(p, slots, decodable, eos, k);
    assert decodable[k] !in decodable[..k];
  }

  // ----- a pass of both

  /** The pool grown for the next token of both. */
  function GrownForBoth(p: Pool, a: DecodeSlot, b: DecodeSlot): Pool
    requires p.blockSize > 0
  {
    Grow(Grow(p, a.requestId, TokensAfter(a)), b.requestId, TokensAfter(b))
  }

  lemma RoomForBoth(p: Pool, a: DecodeSlot, b: DecodeSlot, k: nat)
    requires p.blockSize == 8 && k < 8 && a.requestId != b.requestId && TokensAfter(a) == 9 + k
    requires TokensAfter(b) == 11 + k
    requires |Table(p, a.requestId)| == DivCeil(8 + k, 8) && |Table(p, b.requestId)| == DivCeil(10 + k, 8)
    requires |p.free| == 5 - DivCeil(8 + k, 8) - DivCeil(10 + k, 8)
    ensures Fits(p, a.requestId, TokensAfter(a))
    ensures Fits(Grow(p, a.requestId, TokensAfter(a)), b.requestId, TokensAfter(b))
    ensures var q := GrownForBoth(p, a, b);
            && |Table(q, a.requestId)| == DivCeil(9 + k, 8) && |Table(q, b.requestId)| == DivCeil(11 + k, 8)
            && |q.free| == 5 - DivCeil(9 + k, 8) - DivCeil(11 + k, 8)
  {
    var q := Grow(p, a.requestId, TokensAfter(a));
    GrowFree(p, a.requestId, TokensAfter(a));
    OtherTable(p, a.requestId, TokensAfter(a), b.requestId);
    GrowFree(q, b.requestId, TokensAfter(b));
    OtherTable(q, b.requestId, TokensAfter(b), a.requestId);
    hide Grow;
  }

  /** A sound slot after `k` steps waits for the token the network chooses there. */
  lemma PendingAfter(env: Env, s: Sched, i: nat, client: nat, len: nat, k: nat)
    requires Unequal(env) && Healthy(env, s) && i < |s.running| && s.running[i].Some?
    requires s.running[i].value.clientIndex == client < 2
    requires |env.prompts[client]| == len && !s.running[i].value.slot.finished
    requires |s.running[i].value.slot.generated| == k
    ensures s.running[i].value.slot.nextId == if len + k == 18 then 0 else 1
  {
    var slot := s.running[i].value.slot;
    assert |Encode(env.net, Context(env.prompts[client], slot))| == len + k;
  }

  lemma DifferentRequests(env: Env, s: Sched)
    requires Healthy(env, s) && |s.running| == 2 && s.running[0].Some? && s.running[1].Some?
    ensures s.running[0].value.slot.requestId != s.running[1].value.slot.requestId
  {
  }

  lemma InputOfBoth(env: Env, s: Sched, k: nat) returns (prompts: seq<seq<Item>>)
    requires Healthy(env, s) && env.eos != [] && GroupOf(s.running, k, [0, 1])
    ensures s.cache.pool.blockSize > 0
    ensures StepInput(env.net, env.numBlocks, s.cache, BatchOf(s.running, [0, 1]), k, env.maxNew, env.eos, prompts)
  {
    hide StepInput, Truthful;
    GroupIsStepInput(env, s, k, [0, 1]);
    prompts := GroupPrompts(env, s.running, [0, 1]);
  }

  lemma GroupOfBoth(env: Env, s: Sched, k: nat)
    requires Unequal(env) && Together(env, s, k) && k < 8 && GroupOf(s.running, k, [0, 1])
    ensures !Bumps(s.cache, BatchOf(s.running, [0, 1]), k, env.maxNew, env.eos)
    ensures GroupStep(env, s, k, [0, 1]).0
    ensures var t := GroupStep(env, s, k, [0, 1]).1;
            && |t.running| == 2
            && t.cache.pool == GrownForBoth(s.cache.pool, s.running[0].value.slot, s.running[1].value.slot)
            && forall i :: 0 <= i < 2 ==> Advanced(s.running[i], t.running[i])
  {
    hide Healthy, StepInput, Bumps, DecodeAtStep, Fits, Grow, PutBack, DivCeil, EndsAtEighteen;
    var slots := BatchOf(s.running, [0, 1]);
    assert slots[0] == s.running[0].value.slot && slots[1] == s.running[1].value.slot;
    DifferentRequests(env, s);
    RoomForBoth(s.cache.pool, slots[0], slots[1], k);
    var prompts := InputOfBoth(env, s, k);
    BothAdvance(env, s.cache, slots, k, prompts);
    PutBothBack(env, s, k);
  }

  lemma PutBothBack(env: Env, s: Sched, k: nat)
    requires s.cache.pool.blockSize > 0 && |s.running| == 2 && GroupOf(s.running, k, [0, 1])
    ensures var d, t := DecodeAtStep(env.net, env.numBlocks, s.cache, BatchOf(s.running, [0, 1]), k, env.maxNew,
                                     env.eos), GroupStep(env, s, k, [0, 1]).1;
            && t.cache == d.cache
            && forall i ::
                 0 <= i < 2 ==> s.running[i].Some? && t.running[i] == Some(s.running[i].value.(slot := d.slots[i]))
  {
    hide DecodeAtStep;
    var slots :=
      DecodeAtStep(env.net, env.numBlocks, s.cache, BatchOf(s.running, [0, 1]), k, env.maxNew, env.eos).slots;
    PutBackAt(s.running, [0, 1], slots, 2);
    var idxs: seq<nat> := [0, 1];
    assert idxs[0] == 0 && idxs[1] == 1;
    assert PutBack(s.running, idxs, slots, 2)[idxs[0]] == Some(s.running[idxs[0]].value.(slot := slots[0]));
    assert PutBack(s.running, idxs, slots, 2)[idxs[1]] == Some(s.running[idxs[1]].value.(slot := slots[1]));
  }

  /** The slot has given its token and taken a step. */
  predicate Advanced(o: Option<RunningSlot>, after: Option<RunningSlot>) {
    && o.Some? && after.Some?
    && after.value.clientIndex == o.value.clientIndex
    && var s, t := o.value.slot, after.value.slot;
       t == s.(generated := s.generated + [s.nextId], decodeStep := s.decodeStep + 1, nextId := t.nextId)
  }

  /** While neither is refused nor ends, a pass takes both one step further. */
  lemma TogetherStep(env: Env, s: Sched, k: nat)
    requires Unequal(env) && Together(env, s, k) && k < 8
    ensures DecodePart(env, s).0 && Together(env, DecodePart(env, s).1, k + 1)
  {
    TogetherGroups(env, s, k);
    GroupOfBoth(env, s, k);
    StepTruthful(env, s, k);
    var t := GroupStep(env, s, k, [0, 1]).1;
    BothFurther(env, s, t, k);
    PassOfOneGroup(env, s, k, t);
  }

  lemma StepTruthful(env: Env, s: Sched, k: nat)
    requires Healthy(env, s) && GroupOf(s.running, k, [0, 1]) && env.eos != []
    requires s.cache.pool.blockSize > 0 && !Bumps(s.cache, BatchOf(s.running, [0, 1]), k, env.maxNew, env.eos)
    ensures Healthy(env, GroupStep(env, s, k, [0, 1]).1) && GroupStep(env, s, k, [0, 1]).1.waiting == s.waiting
  {
    hide Bumps, GroupStep;
    GroupStepTruthful(env, s, k, [0, 1]);
  }

  lemma PassOfOneGroup(env: Env, s: Sched, k: nat, t: Sched)
    requires s.cache.pool.blockSize > 0 && |s.running| == 2 && FreeFinished(s, 2) == s
    requires StepGroups(s) == [(k, [0, 1])] && RunGroups(env, s, StepGroups(s), 1) == (true, t)
    requires Unequal(env) && Together(env, t, k + 1) && k < 8
    ensures DecodePart(env, s) == (true, t)
  {
    hide RunGroups, StepGroups, Together, FreeFinished, MarkSpent;
    NothingCollected(env, t, k + 1);
    assert t.(running := t.running) == t;
  }

  lemma NothingCollected(env: Env, t: Sched, k: nat)
    requires Unequal(env) && Together(env, t, k) && k <= 8
    ensures MarkSpent(t.running, env.maxNew) == t.running && FreeFinished(t, 2) == t
  {
    hide Healthy, FreeFinished, DivCeil, Table, EndsAtEighteen;
    FreeFinishedAt(t, 2);
  }

  lemma BothFurther(env: Env, s: Sched, t: Sched, k: nat)
    requires Unequal(env) && Together(env, s, k) && k < 8
    requires Healthy(env, t) && t.waiting == [] && |t.running| == 2
    requires t.cache.pool == GrownForBoth(s.cache.pool, s.running[0].value.slot, s.running[1].value.slot)
    requires Advanced(s.running[0], t.running[0]) && Advanced(s.running[1], t.running[1])
    ensures Together(env, t, k + 1)
  {
    hide Healthy, Fits, Grow, GrownForBoth, DivCeil, EndsAtEighteen;
    var a, b := s.running[0].value.slot, s.running[1].value.slot;
    DifferentRequests(env, s);
    PendingAfter(env, t, 0, 0, 8, k + 1);
    PendingAfter(env, t, 1, 1, 10, k + 1);
    RoomForBoth(s.cache.pool, a, b, k);
    GrownSized(s.cache.pool, a, b);
  }

  lemma GrownSized(p: Pool, a: DecodeSlot, b: DecodeSlot)
    requires p.blockSize > 0
    ensures GrownForBoth(p, a, b).blockSize == p.blockSize
  {
  }

  // ----- the last pass

  /** The ninth token of the first needs a block that is not there; the second ends. */
  lemma LastAllocations(c: Cache, slots: seq<DecodeSlot>)
    requires c.pool.blockSize == 8 && |slots| == 2 && TakesPart(slots[0], 8) && TakesPart(slots[1], 8)
    requires TokensAfter(slots[0]) == 17 && TokensAfter(slots[1]) == 19
    requires |Table(c.pool, slots[0].requestId)| == 2 && |Table(c.pool, slots[1].requestId)| == 3 && c.pool.free == []
    ensures Decodable(c, slots, 8) == (c.pool, [1])
  {
    assert !Fits(c.pool, slots[0].requestId, 17) && Fits(c.pool, slots[1].requestId, 19);
    GrowFree(c.pool, slots[0].requestId, 17);
    assert Grow(c.pool, slots[1].requestId, 19) == c.pool;
    hide Fits, Grow;
    BothSelected(slots, 8);
    var sel := Forward(slots, 8, 2);
    NobodyGrown(c.pool, slots, sel);
    GrowNext(c.pool, slots, sel, 0);
    GrowNext(c.pool, slots, sel, 1);
    assert [] + [sel[1]] == [1];
  }

  lemma LastTokens(env: Env, c: Cache, slots: seq<DecodeSlot>)
    requires c.pool.blockSize == 8 && |slots| == 2 && TakesPart(slots[0], 8) && TakesPart(slots[1], 8)
    requires Decodable(c, slots, 8) == (c.pool, [1]) && env.eos == [0] && env.maxNew == 9 && slots[1].nextId == 0
    ensures Bumps(c, slots, 8, env.maxNew, env.eos)
    ensures var r := DecodeAtStep(env.net, env.numBlocks, c, slots, 8, env.maxNew, env.eos);
            r.ok && r.slots[0] == slots[0].(decodeStep := 9) && r.slots[1] == slots[1].(finished := true)
  {
    var decodable: seq<nat> := [1];
    hide Decodable, Taken;
    assert 0 !in decodable;
    AllEnding(c.pool, slots, decodable, env.eos);
    TakenShape(c.pool, slots, decodable, env.eos, 0);
    TakenShape(c.pool, slots, decodable, env.eos, 1);
    StepEnds(env.net, env.numBlocks, c, slots, 8, env.maxNew, env.eos);
  }

  lemma LastGroup(env: Env, s: Sched)
    requires Unequal(env) && Together(env, s, 8) && GroupOf(s.running, 8, [0, 1])
    ensures Bumps(s.cache, BatchOf(s.running, [0, 1]), 8, env.maxNew, env.eos)
    ensures GroupStep(env, s, 8, [0, 1]).0
    ensures var t := GroupStep(env, s, 8, [0, 1]).1;
            && |t.running| == 2 && t.waiting == [] && t.outputs == s.outputs
            && t.running[0] == Some(s.running[0].value.(slot := s.running[0].value.slot.(decodeStep := 9)))
            && t.running[1] == Some(s.running[1].value.(slot := s.running[1].value.slot.(finished := true)))
  {
    hide Healthy, Bumps, DecodeAtStep, Decodable, EndsAtEighteen;
    var slots := BatchOf(s.running, [0, 1]);
    assert slots[0] == s.running[0].value.slot && slots[1] == s.running[1].value.slot;
    LastAllocations(s.cache, slots);
    LastTokens(env, s.cache, slots);
    PutBothBack(env, s, 8);
  }

  /** The bumped slot has spent its budget, the other has ended: both are collected. */
  lemma BothCollected(t: Sched, a: RunningSlot, b: RunningSlot)
    requires t.running == [Some(a), Some(b)] && |t.outputs| == 2 && a.clientIndex == 0 && b.clientIndex == 1
    requires a.slot.decodeStep == 9 && b.slot.finished
    ensures var u := t.(running := MarkSpent(t.running, 9));
            && FreeFinished(u, 2).running == [None, None]
            && FreeFinished(u, 2).outputs == [a.slot.generated, b.slot.generated]
            && FreeFinished(u, 2).waiting == t.waiting
  {
    var u := t.(running := MarkSpent(t.running, 9));
    assert u.running == [Some(a.(slot := a.slot.(finished := true))), Some(b)];
    assert FreeFinished(u, 1) == FreeStep(u, 0);
    assert FreeFinished(u, 1).outputs == [a.slot.generated, t.outputs[1]];
  }

  /** Everybody is done, the first client with eight tokens. */
  ghost predicate Short(env: Env, s: Sched) {
    && s.cache.pool.blockSize > 0 && s.waiting == [] && |s.running| == 2 && AllDone(s)
    && |s.outputs| == 2 && |s.outputs[0]| == 8
  }

  lemma LastStep(env: Env, s: Sched)
    requires Unequal(env) && Together(env, s, 8)
    ensures PassBumps(env, s) && DecodePart(env, s).0 && Short(env, DecodePart(env, s).1)
  {
    hide Healthy, RunGroups, StepGroups, GroupStep, Bumps, DivCeil, EndsAtEighteen, BatchOf, DecodePart, PassBumps,
         FreeFinished;
    TogetherGroups(env, s, 8);
    LastGroup(env, s);
    TwoOutputs(env, s);
    FirstBumps(env, s);
    LastPass(env, s, GroupStep(env, s, 8, [0, 1]).1);
  }

  lemma TwoOutputs(env: Env, s: Sched)
    requires Healthy(env, s) && Unequal(env)
    ensures |s.outputs| == 2
  {
    hide Truthful, ValidCache;
  }

  lemma LastPass(env: Env, s: Sched, t: Sched)
    requires s.cache.pool.blockSize > 0 && |s.running| == 2 && FreeFinished(s, 2) == s && env.maxNew == 9
    requires StepGroups(s) == [(8, [0, 1])] && RunGroups(env, s, StepGroups(s), 1) == (true, t)
    requires |t.running| == 2 && t.running[0].Some? && t.running[1].Some? && |t.outputs| == 2 && t.waiting == []
    requires t.cache.pool.blockSize > 0
    requires t.running[0].value.clientIndex == 0 && t.running[1].value.clientIndex == 1
    requires t.running[0].value.slot.decodeStep == 9 && |t.running[0].value.slot.generated| == 8
    requires t.running[1].value.slot.finished
    ensures DecodePart(env, s).0 && Short(env, DecodePart(env, s).1)
  {
    hide RunGroups, StepGroups, MarkSpent, FreeFinished;
    assert t.running == [Some(t.running[0].value), Some(t.running[1].value)];
    BothCollected(t, t.running[0].value, t.running[1].value);
  }

  lemma FirstBumps(env: Env, s: Sched)
    requires s.cache.pool.blockSize > 0 && |s.running| == 2 && FreeFinished(s, 2) == s && StepGroups(s) == [(8, [0, 1])]
    requires GroupOf(s.running, 8, [0, 1]) && Bumps(s.cache, BatchOf(s.running, [0, 1]), 8, env.maxNew, env.eos)
    ensures PassBumps(env, s)
  {
    hide StepGroups, GroupOf, Bumps, BatchOf, BumpsAt, FreeFinished;
    OnlyGroupBumps(env, s, StepGroups(s), 8, [0, 1]);
  }

  lemma OnlyGroupBumps(env: Env, s: Sched, groups: Groups, step: nat, idxs: seq<nat>)
    requires s.cache.pool.blockSize > 0 && groups == [(step, idxs)] && GroupOf(s.running, step, idxs)
    requires Bumps(s.cache, BatchOf(s.running, idxs), step, env.maxNew, env.eos)
    ensures BumpsAt(env, s, groups, 0)
  {
    hide GroupOf, Bumps, BatchOf;
    NoGroups(env, s, groups);
  }

  // ----- the first pass

  lemma EmptyPlaces(running: seq<Option<RunningSlot>>)
    requires running == [None, None]
    ensures FreePlaces(running, 2) == [0, 1] && RunningIds(running) == []
  {
    NobodyRuns(running);
    assert FreePlaces(running, 0) == [];
    assert FreePlaces(running, 1) == [0];
  }

  /** Both are admitted in the first wave. */
  lemma BothAdmitted(env: Env, c: Cache, base: nat)
    requires Unequal(env) && c.pool.blockSize == 8
    ensures Queued(env, Start(env, c, base)) && Wave(env, Start(env, c, base)) == 2
  {
    var s := Start(env, c, base);
    assert s.running == [None, None];
    EmptyPlaces(s.running);
    var lens: seq<nat> := [8, 10];
    assert env.lens[0..] == lens;
    assert BlocksOf(lens, 8, 0) == 0;
    WaveUnfolds(lens, 8, 0, 0, 2, 5, 0);
    WaveUnfolds(lens, 8, 0, 0, 2, 5, 1);
    WaveUnfolds(lens, 8, 0, 0, 2, 5, 2);
  }

  /** The two newcomers in their places. */
  lemma BothPlaced(env: Env, c: Cache, base: nat, s': Sched)
    requires Unequal(env) && c.pool.blockSize == 8 && Admits(env, Start(env, c, base), 2, s')
    ensures |s'.running| == 2 && s'.waiting == []
    ensures s'.running[0] == Some(RunningSlot(0, DecodeSlot(base, 8, 1, [], false, 0)))
    ensures s'.running[1] == Some(RunningSlot(1, DecodeSlot(base + 1, 10, 1, [], false, 0)))
  {
    hide Prefilled, PlaceAll, FreePlaces, Entries, WaveLens, FirstTokens, WavePrompts, EndsAtEighteen;
    var s := Start(env, c, base);
    assert s.running == [None, None];
    NewcomerEntries(env, s);
    TwoPlaced(s.running, Entries(0, base, WaveLens(env, s, 2), FirstTokens(env.net, WavePrompts(env, s, 2)), env.eos));
  }

  lemma TwoPlaced(running: seq<Option<RunningSlot>>, entries: seq<RunningSlot>)
    requires running == [None, None] && |entries| == 2
    ensures |FreePlaces(running, 2)| == 2 && Indexes(FreePlaces(running, 2), 2)
    ensures PlaceAll(running, FreePlaces(running, 2), entries, 2) == [Some(entries[0]), Some(entries[1])]
  {
    EmptyPlaces(running);
    PlacedNew(running, entries, 0);
    PlacedNew(running, entries, 1);
  }

  lemma NewcomerEntries(env: Env, s: Sched)
    requires Unequal(env) && Queued(env, s) && |s.waiting| == 2
    ensures var entries :=
              Entries(0, s.nextId, WaveLens(env, s, 2), FirstTokens(env.net, WavePrompts(env, s, 2)), env.eos);
            && entries[0] == RunningSlot(0, DecodeSlot(s.nextId, 8, 1, [], false, 0))
            && entries[1] == RunningSlot(1, DecodeSlot(s.nextId + 1, 10, 1, [], false, 0))
  {
    assert WavePrompts(env, s, 2)[0] == env.prompts[0] && WavePrompts(env, s, 2)[1] == env.prompts[1];
    assert NextToken(env.net, env.prompts[0]) == 1 && NextToken(env.net, env.prompts[1]) == 1;
  }

  /** A newcomer holds exactly the blocks of its prompt. */
  lemma NewcomerTable(env: Env, c: Cache, base: nat, s': Sched, i: nat)
    requires Unequal(env) && c.pool.blockSize == 8 && ValidCache(c, env.numBlocks) && Unowned(c.pool)
    requires Admits(env, Start(env, c, base), 2, s') && Healthy(env, s') && i < 2
    requires |s'.running| == 2 && s'.running[i].Some? && s'.running[i].value.clientIndex == i
    requires s'.running[i].value.slot.requestId == base + i
    requires !s'.running[i].value.slot.finished && s'.running[i].value.slot.generated == []
    requires s'.cache.pool.blockSize == 8
    ensures |Table(s'.cache.pool, base + i)| == DivCeil(env.lens[i], 8)
  {
    hide Wave, Accounted, WellFormed, Truthful, GrowPrompts, Admits, PromptsFit, DivCeil, EndsAtEighteen, Start,
         Unowned, ValidCache, Table;
    var s := Start(env, c, base);
    BothAdmitted(env, c, base);
    StartIs(env, c, base);
    StartAccounted(env, c, base);
    TableCovers(env, s', i);
    DivCeilLeast(env.lens[i], 8, |Table(s'.cache.pool, base + i)|);
    AdmittedWaveFits(env, c.pool, base, s);
    TrimmedSize(env, s, 2, s', base + i);
    NewcomerGrown(env, c, base, s, i);
  }

  lemma StartIs(env: Env, c: Cache, base: nat)
    ensures Start(env, c, base).cache == c && Start(env, c, base).nextId == base
    ensures |Start(env, c, base).waiting| == |env.prompts|
  {
  }

  lemma NewcomerGrown(env: Env, c: Cache, base: nat, s: Sched, i: nat)
    requires Unequal(env) && Queued(env, s) && |s.waiting| == 2 && s.cache == c && s.nextId == base
    requires c.pool.blockSize == 8 && i < 2
    requires Unowned(c.pool) && PromptsFit(c.pool, RequestIds(base, 2), WaveLens(env, s, 2), 2)
    ensures |Table(GrowPrompts(c.pool, RequestIds(base, 2), WaveLens(env, s, 2), 2), base + i)| ==
              DivCeil(env.lens[i], 8)
  {
    hide GrowPrompts, PromptsFit, DivCeil, EndsAtEighteen;
    RequestIdsRange(base, 2);
    assert RequestIds(base, 2)[i] == base + i && WaveLens(env, s, 2)[i] == env.lens[i];
    WaveTable(c.pool, RequestIds(base, 2), WaveLens(env, s, 2), 2, i);
  }

  lemma TableCovers(env: Env, s: Sched, i: nat)
    requires Unequal(env) && Healthy(env, s) && i < |s.running| && s.running[i].Some?
    requires s.running[i].value.clientIndex == i < 2
    requires !s.running[i].value.slot.finished && s.running[i].value.slot.generated == []
    ensures s.cache.pool.blockSize > 0
    ensures Covers(Table(s.cache.pool, s.running[i].value.slot.requestId), s.cache.pool.blockSize, env.lens[i])
  {
    hide Sound, Covers;
    var entry := s.running[i].value;
    SlotCovers(env, s.cache, env.prompts[i], entry.slot);
  }

  lemma SlotCovers(env: Env, c: Cache, prompt: seq<Item>, slot: DecodeSlot)
    requires c.pool.blockSize > 0 && Sound(env.net, env.eos, env.maxNew, c.pool, c.kv, prompt, slot) && !slot.finished
    requires slot.generated == []
    ensures Covers(Table(c.pool, slot.requestId), c.pool.blockSize, |prompt|)
  {
  }

  lemma FirstWave(env: Env, c: Cache, base: nat, s': Sched)
    requires Unequal(env) && c.pool == Fresh(6, 8) && ValidCache(c, 6)
    requires Pass(env, Start(env, c, base), s')
    ensures Together(env, s', 0)
  {
    hide Pass, EndsAtEighteen, Wave, Admits, PassBumps, DecodePart, Queued, Healthy, Start, ValidCache, DivCeil,
         Unowned, Table;
    var s := Start(env, c, base);
    StartIdle(env, c, base);
    BothAdmitted(env, c, base);
    FirstPass(env, c, base, s');
    StartHealthy(env, c, base);
    PassKeepsHealth(env, s, s');
    BlockSizeKept(env, s, 2, s');
    BothPlaced(env, c, base, s');
    StartSized(env, c, base);
    FreshUnowned();
    NewcomerTable(env, c, base, s', 0);
    NewcomerTable(env, c, base, s', 1);
    FreeAtFirst(env, c, base, s');
    SmallBlocks();
  }

  lemma StartIdle(env: Env, c: Cache, base: nat)
    requires env.maxSlots == 2 && c.pool.blockSize > 0
    ensures DecodePart(env, Start(env, c, base)) == (true, Start(env, c, base)) && !PassBumps(env, Start(env, c, base))
  {
    var s := Start(env, c, base);
    IdlePass(env, s);
    FreeFinishedAt(s, |s.running|);
    NobodyActive(s.running, |s.running|);
    NoActiveGroups(env, s);
  }

  lemma FirstPass(env: Env, c: Cache, base: nat, s': Sched)
    requires Queued(env, Start(env, c, base)) && Wave(env, Start(env, c, base)) == 2
    requires DecodePart(env, Start(env, c, base)) == (true, Start(env, c, base))
    requires Pass(env, Start(env, c, base), s')
    ensures Admits(env, Start(env, c, base), 2, s')
  {
    hide Admits, Start, Wave, DecodePart;
  }

  lemma FreeAtFirst(env: Env, c: Cache, base: nat, s': Sched)
    requires Unequal(env) && c.pool == Fresh(6, 8) && ValidCache(c, 6)
    requires Pass(env, Start(env, c, base), s') && |s'.running| == 2
    requires s'.running[0].Some? && s'.running[0].value.slot.requestId == base
    requires |Table(s'.cache.pool, base)| == DivCeil(8, 8)
    requires s'.running[1].Some? && s'.running[1].value.slot.requestId == base + 1
    requires |Table(s'.cache.pool, base + 1)| == DivCeil(10, 8)
    ensures |s'.cache.pool.free| == 2
  {
    hide Pass, Accounted, WellFormed, Start, DivCeil;
    StartSized(env, c, base);
    StartAccounted(env, c, base);
    PassKeepsForm(env, Start(env, c, base), s');
    PassAccounted(env, c.pool, base, Start(env, c, base), s');
    FreshUnowned();
    HeldNow(env, c.pool, base, s');
    TwoIds(s'.running, base);
    HeldStep(s'.cache.pool, [], base);
    HeldStep(s'.cache.pool, [base], base + 1);
    TwoHeld(s'.cache.pool, base);
    SmallBlocks();
  }

  lemma SmallBlocks()
    ensures DivCeil(8, 8) == 1 && DivCeil(10, 8) == 2
  {
  }

  lemma FreshUnowned()
    ensures Unowned(Fresh(6, 8))
  {
  }

  lemma TwoHeld(p: Pool, base: nat)
    ensures Held(p, [base, base + 1]) == |Table(p, base)| + |Table(p, base + 1)|
  {
    HeldStep(p, [], base);
    HeldStep(p, [base], base + 1);
    assert [] + [base] == [base] && [base] + [base + 1] == [base, base + 1];
  }

  lemma TwoIds(running: seq<Option<RunningSlot>>, base: nat)
    requires |running| == 2 && running[0].Some? && running[1].Some?
    requires running[0].value.slot.requestId == base && running[1].value.slot.requestId == base + 1
    ensures RunningIds(running) == [base, base + 1]
  {
    RunningIdsStep(running, 0);
    RunningIdsStep(running, 1);
    assert running[..2] == running && running[..0] == [];
  }

  // ----- the whole run

  ghost predicate PhaseAt(env: Env, c: Cache, base: nat, s: Sched, i: nat) {
    if i == 0 then s == Start(env, c, base) else if i <= 9 then Together(env, s, i - 1) else Short(env, s)
  }

  lemma TogetherPass(env: Env, s: Sched, s': Sched, k: nat)
    requires Unequal(env) && Together(env, s, k) && k <= 8 && Pass(env, s, s')
    ensures if k < 8 then Together(env, s', k + 1) else Short(env, s')
  {
    if k < 8 {
      TogetherStep(env, s, k);
    } else {
      LastStep(env, s);
    }
    hide Together, Short, DecodePart, Admits;
    NobodyWaits(env, s, s', k);
  }

  lemma NobodyWaits(env: Env, s: Sched, s': Sched, k: nat)
    requires Together(env, s, k) && Pass(env, s, s') && DecodePart(env, s).1.waiting == []
    ensures s' == DecodePart(env, s).1
  {
    hide DecodePart, Admits, Healthy;
  }

  lemma ShortPass(env: Env, s: Sched, s': Sched)
    requires Short(env, s) && Pass(env, s, s')
    ensures s' == s
  {
    IdlePass(env, s);
    hide DecodePart, Admits;
  }

  lemma {:induction false} EveryPhase(env: Env, c: Cache, base: nat, trace: seq<Sched>, i: nat)
    requires Unequal(env) && c.pool == Fresh(6, 8) && ValidCache(c, 6)
    requires i < |trace| && trace[0] == Start(env, c, base) && BatchRuns.Run(env, trace)
    ensures PhaseAt(env, c, base, trace[i], i)
  {
    hide Unequal, Pass, Together, Short, Start, ValidCache;
    if i > 0 {
      EveryPhase(env, c, base, trace, i - 1);
      assert PassAt(env, trace, i);
      if i == 1 {
        FirstWave(env, c, base, trace[1]);
      } else if i <= 10 {
        TogetherPass(env, trace[i - 1], trace[i], i - 2);
      } else {
        ShortPass(env, trace[i - 1], trace[i]);
      }
    }
  }

  /** The run cannot end before both are done. */
  lemma PhaseEnd(env: Env, prepared: seq<PreparedInputs>, c: Cache, base: nat, s: Sched, i: nat, r: RunResult)
    requires Unequal(env) && c.pool == Fresh(6, 8) && ValidCache(c, 6)
    requires env.lens == PromptLensOf(prepared)
    requires forall k :: 0 <= k < |prepared| ==> PromptLen(prepared[k]) <= |prepared[k].inputIds|
    requires PhaseAt(env, c, base, s, i) && EndsIn(env, prepared, s, r)
    ensures i > 9 && r.Done? && |r.outputs| == 2 && |r.outputs[0]| == 8
  {
    hide Unequal, EndsIn, Together, Short;
    if i == 0 {
      NotAtStart(env, prepared, c, base, r);
      assert false;
    } else if i <= 9 {
      NotTogether(env, prepared, s, i - 1, r);
      assert false;
    } else {
      DoneWhenShort(env, prepared, s, r);
    }
  }

  lemma DoneWhenShort(env: Env, prepared: seq<PreparedInputs>, s: Sched, r: RunResult)
    requires Short(env, s) && EndsIn(env, prepared, s, r)
    ensures r.Done? && |r.outputs| == 2 && |r.outputs[0]| == 8
  {
    hide DecodePart, Wave, WaveReady;
    IdlePass(env, s);
  }

  lemma NotAtStart(env: Env, prepared: seq<PreparedInputs>, c: Cache, base: nat, r: RunResult)
    requires Unequal(env) && c.pool == Fresh(6, 8) && ValidCache(c, 6)
    requires env.lens == PromptLensOf(prepared)
    requires forall k :: 0 <= k < |prepared| ==> PromptLen(prepared[k]) <= |prepared[k].inputIds|
    ensures !EndsIn(env, prepared, Start(env, c, base), r)
  {
    var s := Start(env, c, base);
    StartIdle(env, c, base);
    BothAdmitted(env, c, base);
    StartAccounted(env, c, base);
    FreshUnowned();
    hide DecodePart, Wave, ValidCache, EndsAtEighteen, PromptsFit, WaveReady, PromptLen, Accounted, Unowned,
         GrowPrompts;
    WaveOfBoth(env, prepared, c, s);
  }

  lemma WaveOfBoth(env: Env, prepared: seq<PreparedInputs>, c: Cache, s: Sched)
    requires Unequal(env) && WellFormed(env, s) && Accounted(c.pool, s.nextId, s) && Unowned(c.pool) && Queued(env, s)
    requires Wave(env, s) == 2
    requires env.lens == PromptLensOf(prepared)
    requires forall k :: 0 <= k < |prepared| ==> PromptLen(prepared[k]) <= |prepared[k].inputIds|
    ensures WaveReady(env, prepared, s)
  {
    hide WellFormed, Accounted, PromptsFit, Wave, PromptLen, GrowPrompts, Unowned, EndsAtEighteen;
    AdmittedWaveFits(env, c.pool, s.nextId, s);
    WaveRowsFit(prepared, Admitted(env, s), 2);
    assert WaveLens(env, s, 2) == [8, 10][Admitted(env, s)..Admitted(env, s) + 2];
  }

  lemma NotTogether(env: Env, prepared: seq<PreparedInputs>, s: Sched, k: nat, r: RunResult)
    requires Unequal(env) && Together(env, s, k) && k <= 8
    ensures !EndsIn(env, prepared, s, r)
  {
    NotStarved(env, s, k);
    DecodesTogether(env, s, k);
    SomebodyStays(env, s, k);
    hide *;
    StillGoing(env, prepared, s, r);
  }

  lemma StillGoing(env: Env, prepared: seq<PreparedInputs>, s: Sched, r: RunResult)
    requires s.cache.pool.blockSize > 0 && s.waiting == [] && |s.running| == 2 && s.running[0].Some? && !Starved(s)
    requires DecodePart(env, s).0 && DecodePart(env, s).1.waiting == []
    ensures !EndsIn(env, prepared, s, r)
  {
    hide DecodePart, Starved, Wave, WaveReady, StepsBelow;
  }

  lemma DecodesTogether(env: Env, s: Sched, k: nat)
    requires Unequal(env) && Together(env, s, k) && k <= 8
    ensures s.cache.pool.blockSize > 0 && DecodePart(env, s).0 && DecodePart(env, s).1.waiting == []
  {
    hide DecodePart, Healthy, EndsAtEighteen, PassBumps, DivCeil;
    if k < 8 {
      TogetherStep(env, s, k);
    } else {
      LastStep(env, s);
    }
  }

  lemma SomebodyStays(env: Env, s: Sched, k: nat)
    requires Together(env, s, k)
    ensures s.waiting == [] && |s.running| == 2 && s.running[0].Some?
  {
    hide Healthy;
  }

  lemma NotStarved(env: Env, s: Sched, k: nat)
    requires Together(env, s, k) && k <= 8
    ensures !Starved(s)
  {
    hide Healthy;
    var b := s.running[1].value.slot;
    assert Fits(s.cache.pool, b.requestId, TokensAfter(b));
  }

  /** Both at work, in a new pool. */
  ghost function UnequalEnv(net: Network): Env {
    PlainAudio([PlainRow(8), PlainRow(10)], [8, 10], 7, 2);
    EnvOf(net, [0], 9, [PlainRow(8), PlainRow(10)], 7, [], 6, 2)
  }

  lemma UnequalEnvIs(net: Network)
    requires EndsAtEighteen(net)
    ensures Unequal(UnequalEnv(net))
  {
    hide EndsAtEighteen, PlainRow, MaskLen, CountAudio, AudioOffset;
    PlainClean(8, 7);
    PlainClean(10, 7);
    PlainAudio([PlainRow(8), PlainRow(10)], [8, 10], 7, 2);
    assert UnequalEnv(net).lens == [8, 10];
  }

  /** The first client alone is given its whole budget. */
  lemma {:induction false} WholeBudget(net: Network, context: seq<Item>, budget: nat)
    requires EndsAtEighteen(net) && |context| + budget <= 18
    ensures |Greedy(net, [0], context, budget)| == budget
    decreases budget
  {
    if budget > 0 {
      WholeBudget(net, context + [Embedding(NextToken(net, context))], budget - 1);
    }
  }

  /** A legal call that returns a wrong transcript: two plain prompts in a new pool of six blocks. The run is done,
      and the first client has eight tokens where decoding it alone gives nine. */
  method LosesToken(net: Network) returns (r: RunResult, ghost trace: seq<Sched>)
    requires EndsAtEighteen(net)
    ensures r.Done? && |r.outputs| == 2 && |r.outputs[0]| == 8 && |Output(UnequalEnv(net), 0)| == 9
    ensures exists c: Cache ::
              c.pool == Fresh(6, 8) && RunsTo(UnequalEnv(net), [PlainRow(8), PlainRow(10)], c, 0, trace, r)
  {
    var rt := new PagedCacheRuntime(net, 6, 8);
    var scheduler := new AsrBatchScheduler(2);
    var prepared := [PlainRow(8), PlainRow(10)];
    PlainClean(8, 7);
    PlainClean(10, 7);
    PlainAudio(prepared, [8, 10], 7, 2);
    ghost var c := rt.View();
    r, trace := scheduler.RunContinuousPrepared(net, rt, 7, 0, prepared, [], 9, [0], false);
    RunOfBoth(net, c, trace, r);
  }

  lemma RunOfBoth(net: Network, c: Cache, trace: seq<Sched>, r: RunResult)
    requires EndsAtEighteen(net) && c.pool == Fresh(6, 8) && ValidCache(c, 6)
    requires RunsTo(UnequalEnv(net), [PlainRow(8), PlainRow(10)], c, 0, trace, r)
    ensures r.Done? && |r.outputs| == 2 && |r.outputs[0]| == 8 && |Output(UnequalEnv(net), 0)| == 9
  {
    hide UnequalEnv, PlainRow, RunsTo, Output, MaskLen, ValidCache, EndsAtEighteen;
    UnequalEnvIs(net);
    PlainClean(8, 7);
    PlainClean(10, 7);
    UnequalOutcome(UnequalEnv(net), [PlainRow(8), PlainRow(10)], c, 0, trace, r);
  }

  /** Every such run is done, with a token missing. */
  lemma UnequalOutcome(env: Env, prepared: seq<PreparedInputs>, c: Cache, base: nat, trace: seq<Sched>, r: RunResult)
    requires Unequal(env) && c.pool == Fresh(6, 8) && ValidCache(c, 6)
    requires env.lens == PromptLensOf(prepared)
    requires forall k :: 0 <= k < |prepared| ==> PromptLen(prepared[k]) <= |prepared[k].inputIds|
    requires RunsTo(env, prepared, c, base, trace, r)
    ensures r.Done? && |r.outputs| == 2 && |r.outputs[0]| == 8 && |Output(env, 0)| == 9
  {
    hide Start, ValidCache, PhaseAt, EndsIn, BatchRuns.Run, EndsAtEighteen, PromptLensOf, PromptLen;
    EveryPhase(env, c, base, trace, |trace| - 1);
    PhaseEnd(env, prepared, c, base, trace[|trace| - 1], |trace| - 1, r);
    WholeBudget(env.net, env.prompts[0], 9);
  }
}
