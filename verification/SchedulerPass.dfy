/** The decode part of a scheduler pass as a function of the schedule: collect finished slots, run
    every group, finish spent budgets, collect again. */
module SchedulerPass {
  import opened Prelude
  import opened PagedCacheRuntime
  import opened DecodeStep
  import opened DecodeSoundness
  import opened ContinuousBatch
  import opened DecodePass

  /** Same occupant: client, request and prompt. */
  ghost predicate SamePlace(a: Option<RunningSlot>, b: Option<RunningSlot>) {
    && (a.Some? <==> b.Some?)
    && (a.Some? ==>
          && a.value.clientIndex == b.value.clientIndex
          && a.value.slot.requestId == b.value.slot.requestId
          && a.value.slot.promptLen == b.value.slot.promptLen)
  }

  /** Run the first `k` groups in order; the first error stops the pass. */
  ghost function RunGroups(env: Env, s: Sched, groups: Groups, k: nat): (r: (bool, Sched))
    requires s.cache.pool.blockSize > 0 && k <= |groups|
    ensures r.1.cache.pool.blockSize == s.cache.pool.blockSize && |r.1.running| == |s.running|
    ensures r.1 == s.(cache := r.1.cache, running := r.1.running)
  {
    if k == 0 then (true, s) else
      var (ok, t) := RunGroups(env, s, groups, k - 1);
      if !ok || !GroupOf(t.running, groups[k - 1].0, groups[k - 1].1) then (false, t)
      else GroupStep(env, t, groups[k - 1].0, groups[k - 1].1)
  }

  // ----- one group

  lemma GroupStepAt(env: Env, s: Sched, step: nat, idxs: seq<nat>, i: nat)
    requires s.cache.pool.blockSize > 0 && GroupOf(s.running, step, idxs) && i < |s.running|
    ensures var (ok, s') := GroupStep(env, s, step, idxs);
            && (i !in idxs ==> s'.running[i] == s.running[i])
            && SamePlace(s.running[i], s'.running[i])
            && (ok ==> LoadAt(s'.running[i], env.maxNew) <= LoadAt(s.running[i], env.maxNew))
  {
    var slots := BatchOf(s.running, idxs);
    hide DecodeAtStep, PutBack;
    GroupStepShape(env, s, step, idxs, i);
    if i in idxs {
      var d := DecodeAtStep(env.net, env.numBlocks, s.cache, slots, step, env.maxNew, env.eos);
      var k :| 0 <= k < |idxs| && idxs[k] == i &&
        GroupStep(env, s, step, idxs).1.running[i] == Some(s.running[i].value.(slot := d.slots[k]));
      StepProgress(env.net, env.numBlocks, s.cache, slots, step, env.maxNew, env.eos, k);
    }
  }

  /** A group all of whose allocations are refused leaves the schedule as it is. */
  lemma GroupRefused(env: Env, s: Sched, step: nat, idxs: seq<nat>)
    requires s.cache.pool.blockSize > 0 && GroupOf(s.running, step, idxs) && step < env.maxNew && env.eos != []
    requires Decodable(s.cache, BatchOf(s.running, idxs), step).1 == []
    ensures GroupStep(env, s, step, idxs) == (true, s)
  {
    var slots := BatchOf(s.running, idxs);
    StepRefused(env.net, env.numBlocks, s.cache, slots, step, env.maxNew, env.eos);
    PutBackAt(s.running, idxs, slots, |idxs|);
    assert idxs[..|idxs|] == idxs;
    var r := PutBack(s.running, idxs, slots, |idxs|);
    forall i | 0 <= i < |r|
      ensures r[i] == s.running[i]
    {
      if i in idxs {
        var k :| 0 <= k < |idxs| && idxs[k] == i;
        assert r[idxs[k]] == Some(s.running[idxs[k]].value.(slot := slots[k]));
      }
    }
    assert r == s.running;
  }

  /** A successful group that grants a block brings some slot closer to its end. */
  lemma GroupProgress(env: Env, s: Sched, step: nat, idxs: seq<nat>)
    requires s.cache.pool.blockSize > 0 && GroupOf(s.running, step, idxs) && step < env.maxNew
    requires Decodable(s.cache, BatchOf(s.running, idxs), step).1 != []
    requires GroupStep(env, s, step, idxs).0
    ensures Load(GroupStep(env, s, step, idxs).1.running, env.maxNew) < Load(s.running, env.maxNew)
  {
    hide DecodeAtStep, PutBack;
    var slots := BatchOf(s.running, idxs);
    var d := DecodeAtStep(env.net, env.numBlocks, s.cache, slots, step, env.maxNew, env.eos);
    var s' := GroupStep(env, s, step, idxs).1;
    forall i | 0 <= i < |s.running|
      ensures LoadAt(s'.running[i], env.maxNew) <= LoadAt(s.running[i], env.maxNew)
    {
      GroupStepAt(env, s, step, idxs, i);
    }
    LoadMonotone(s.running, s'.running, env.maxNew);
    SelectionDistinct(s.cache, slots, step);
    var j := Decodable(s.cache, slots, step).1[0];
    assert j in Decodable(s.cache, slots, step).1;
    StepProgress(env.net, env.numBlocks, s.cache, slots, step, env.maxNew, env.eos, j);
    assert idxs[j] in idxs;
    GroupStepShape(env, s, step, idxs, idxs[j]);
    var k :| 0 <= k < |idxs| && idxs[k] == idxs[j] &&
      s'.running[idxs[j]] == Some(s.running[idxs[j]].value.(slot := d.slots[k]));
    assert k == j;
    assert LoadAt(s'.running[idxs[j]], env.maxNew) < LoadAt(s.running[idxs[j]], env.maxNew);
  }

  // ----- all groups

  lemma {:induction false} GroupsAt(env: Env, s: Sched, groups: Groups, k: nat, i: nat)
    requires s.cache.pool.blockSize > 0 && k <= |groups| && i < |s.running|
    ensures var (ok, t) := RunGroups(env, s, groups, k);
            && ((forall g :: 0 <= g < k ==> i !in groups[g].1) ==> t.running[i] == s.running[i])
            && SamePlace(s.running[i], t.running[i])
            && (ok ==> LoadAt(t.running[i], env.maxNew) <= LoadAt(s.running[i], env.maxNew))
  {
    if k > 0 {
      hide GroupStep, GroupOf, LoadAt;
      GroupsAt(env, s, groups, k - 1, i);
      var (ok, t) := RunGroups(env, s, groups, k - 1);
      if ok && GroupOf(t.running, groups[k - 1].0, groups[k - 1].1) {
        GroupStepAt(env, t, groups[k - 1].0, groups[k - 1].1, i);
      }
    }
  }

  /** A group is still intact when its turn comes. */
  lemma StillGroup(env: Env, s: Sched, groups: Groups, k: nat, g: nat)
    requires s.cache.pool.blockSize > 0 && Grouping(s.running, groups) && k <= g < |groups|
    ensures GroupOf(RunGroups(env, s, groups, k).1.running, groups[g].0, groups[g].1)
  {
    hide RunGroups;
    var t := RunGroups(env, s, groups, k).1;
    var idxs := groups[g].1;
    assert GroupOf(s.running, groups[g].0, idxs);
    forall j | 0 <= j < |idxs|
      ensures t.running[idxs[j]] == s.running[idxs[j]]
    {
      forall h | 0 <= h < k
        ensures idxs[j] !in groups[h].1
      {
        assert idxs[j] in groups[g].1;
      }
      GroupsAt(env, s, groups, k, idxs[j]);
    }
  }

  lemma {:induction false} GroupsWellFormed(env: Env, s: Sched, groups: Groups, k: nat)
    requires WellFormed(env, s) && k <= |groups|
    ensures WellFormed(env, RunGroups(env, s, groups, k).1)
  {
    if k > 0 {
      hide WellFormed, GroupStep, GroupOf;
      GroupsWellFormed(env, s, groups, k - 1);
      var (ok, t) := RunGroups(env, s, groups, k - 1);
      if ok && GroupOf(t.running, groups[k - 1].0, groups[k - 1].1) {
        GroupStepWellFormed(env, t, groups[k - 1].0, groups[k - 1].1);
      }
    }
  }

  /** The `g`-th group takes the losing branch of the decode step. */
  ghost predicate BumpsAt(env: Env, s: Sched, groups: Groups, g: nat)
    requires s.cache.pool.blockSize > 0 && g < |groups|
  {
    var (ok, t) := RunGroups(env, s, groups, g);
    ok && GroupOf(t.running, groups[g].0, groups[g].1) &&
      Bumps(t.cache, BatchOf(t.running, groups[g].1), groups[g].0, env.maxNew, env.eos)
  }

  lemma {:induction false} GroupsHealthy(env: Env, s: Sched, groups: Groups, k: nat)
    requires s.cache.pool.blockSize > 0 && Healthy(env, s) && Grouping(s.running, groups) && env.eos != []
    requires k <= |groups|
    requires forall g :: 0 <= g < k ==> !BumpsAt(env, s, groups, g)
    ensures RunGroups(env, s, groups, k).0 && Healthy(env, RunGroups(env, s, groups, k).1)
  {
    hide Healthy, Grouping, BumpsAt, RunGroups;
    if k > 0 {
      GroupsHealthy(env, s, groups, k - 1);
      NextGroupHealthy(env, s, groups, k);
    } else {
      NoGroups(env, s, groups);
    }
  }

  lemma NoGroups(env: Env, s: Sched, groups: Groups)
    requires s.cache.pool.blockSize > 0
    ensures RunGroups(env, s, groups, 0) == (true, s)
  {
  }

  lemma NextGroupHealthy(env: Env, s: Sched, groups: Groups, k: nat)
    requires s.cache.pool.blockSize > 0 && Grouping(s.running, groups) && env.eos != [] && 0 < k <= |groups|
    requires RunGroups(env, s, groups, k - 1).0 && Healthy(env, RunGroups(env, s, groups, k - 1).1)
    requires !BumpsAt(env, s, groups, k - 1)
    ensures RunGroups(env, s, groups, k).0 && Healthy(env, RunGroups(env, s, groups, k).1)
  {
    hide Healthy, GroupStep, Grouping, Bumps, BatchOf;
    StillGroup(env, s, groups, k - 1, k - 1);
    GroupStepHealthy(env, RunGroups(env, s, groups, k - 1).1, groups[k - 1].0, groups[k - 1].1);
  }

  lemma GroupStepHealthy(env: Env, s: Sched, step: nat, idxs: seq<nat>)
    requires s.cache.pool.blockSize > 0 && Healthy(env, s) && GroupOf(s.running, step, idxs) && env.eos != []
    requires !Bumps(s.cache, BatchOf(s.running, idxs), step, env.maxNew, env.eos)
    ensures GroupStep(env, s, step, idxs).0 && Healthy(env, GroupStep(env, s, step, idxs).1)
  {
    hide Bumps, BatchOf, GroupStep;
    GroupStepTruthful(env, s, step, idxs);
  }

  lemma PoolSized(env: Env, s: Sched)
    requires WellFormed(env, s)
    ensures s.cache.pool.blockSize > 0
  {
  }

  lemma {:induction false} GroupsLoad(env: Env, s: Sched, groups: Groups, k: nat)
    requires s.cache.pool.blockSize > 0 && k <= |groups| && RunGroups(env, s, groups, k).0
    ensures Load(RunGroups(env, s, groups, k).1.running, env.maxNew) <= Load(s.running, env.maxNew)
  {
    hide RunGroups;
    var t := RunGroups(env, s, groups, k).1;
    forall i | 0 <= i < |s.running|
      ensures LoadAt(t.running[i], env.maxNew) <= LoadAt(s.running[i], env.maxNew)
    {
      GroupsAt(env, s, groups, k, i);
    }
    LoadMonotone(s.running, t.running, env.maxNew);
  }

  /** No slot of the `g`-th group gets its block, in the schedule `s`. */
  ghost predicate RefusedAt(env: Env, s: Sched, groups: Groups, g: nat)
    requires s.cache.pool.blockSize > 0 && g < |groups|
  {
    GroupOf(s.running, groups[g].0, groups[g].1) &&
      Decodable(s.cache, BatchOf(s.running, groups[g].1), groups[g].0).1 == []
  }

  /** The groups change nothing exactly when every one of them is refused; otherwise, unless one
      fails, they come closer to the end. */
  lemma {:induction false} GroupsStill(env: Env, s: Sched, groups: Groups, k: nat)
    requires s.cache.pool.blockSize > 0 && Grouping(s.running, groups) && env.eos != [] && k <= |groups|
    requires forall g :: 0 <= g < |groups| ==> groups[g].0 < env.maxNew
    ensures if forall g :: 0 <= g < k ==> RefusedAt(env, s, groups, g) then RunGroups(env, s, groups, k) == (true, s)
            else RunGroups(env, s, groups, k).0 ==>
              Load(RunGroups(env, s, groups, k).1.running, env.maxNew) < Load(s.running, env.maxNew)
  {
    hide GroupStep, Grouping, Load, Decodable, GroupOf, WellFormed;
    if k > 0 {
      GroupsStill(env, s, groups, k - 1);
      var (ok, t) := RunGroups(env, s, groups, k - 1);
      StillGroup(env, s, groups, k - 1, k - 1);
      if forall g :: 0 <= g < k - 1 ==> RefusedAt(env, s, groups, g) {
        if RefusedAt(env, s, groups, k - 1) {
          GroupRefused(env, s, groups[k - 1].0, groups[k - 1].1);
        } else if RunGroups(env, s, groups, k).0 {
          GroupProgress(env, s, groups[k - 1].0, groups[k - 1].1);
        }
      } else if RunGroups(env, s, groups, k).0 {
        var g :| 0 <= g < k - 1 && !RefusedAt(env, s, groups, g);
        GroupStepLoad(env, t, groups[k - 1].0, groups[k - 1].1);
      }
    }
  }

  lemma GroupStepLoad(env: Env, s: Sched, step: nat, idxs: seq<nat>)
    requires s.cache.pool.blockSize > 0 && GroupOf(s.running, step, idxs) && GroupStep(env, s, step, idxs).0
    ensures Load(GroupStep(env, s, step, idxs).1.running, env.maxNew) <= Load(s.running, env.maxNew)
  {
    hide GroupStep;
    var t := GroupStep(env, s, step, idxs).1;
    forall i | 0 <= i < |s.running|
      ensures LoadAt(t.running[i], env.maxNew) <= LoadAt(s.running[i], env.maxNew)
    {
      GroupStepAt(env, s, step, idxs, i);
    }
    LoadMonotone(s.running, t.running, env.maxNew);
  }

  // ----- the pass

  ghost function StepGroups(s: Sched): Groups {
    GroupsOf(Active(s.running, |s.running|))
  }

  /** Everything a pass does before it admits new sequences. */
  ghost function DecodePart(env: Env, s: Sched): (r: (bool, Sched))
    requires s.cache.pool.blockSize > 0
    ensures r.1.cache.pool.blockSize == s.cache.pool.blockSize && |r.1.running| == |s.running|
  {
    var s1 := FreeFinished(s, |s.running|);
    var (ok, s2) := RunGroups(env, s1, StepGroups(s1), |StepGroups(s1)|);
    if !ok then (false, s2)
    else
      var s3 := s2.(running := MarkSpent(s2.running, env.maxNew));
      (true, FreeFinished(s3, |s3.running|))
  }

  /** Some group of the pass takes the losing branch of the decode step. */
  ghost predicate PassBumps(env: Env, s: Sched) {
    s.cache.pool.blockSize > 0 &&
    var s1 := FreeFinished(s, |s.running|);
    exists g :: 0 <= g < |StepGroups(s1)| && BumpsAt(env, s1, StepGroups(s1), g)
  }

  lemma StepGroupsGroup(s: Sched)
    ensures Grouping(s.running, StepGroups(s))
  {
    GroupsAreGrouped(Active(s.running, |s.running|));
    GroupsPartition(s.running, StepGroups(s));
  }

  lemma PassWellFormed(env: Env, s: Sched)
    requires s.cache.pool.blockSize > 0 && WellFormed(env, s)
    ensures WellFormed(env, DecodePart(env, s).1)
    ensures DecodePart(env, s).1.waiting == s.waiting && DecodePart(env, s).1.nextId == s.nextId
  {
    hide WellFormed, RunGroups, FreeFinished, StepGroups;
    FreeFinishedKeeps(env, s, |s.running|);
    var s1 := FreeFinished(s, |s.running|);
    GroupsWellFormed(env, s1, StepGroups(s1), |StepGroups(s1)|);
    var (ok, s2) := RunGroups(env, s1, StepGroups(s1), |StepGroups(s1)|);
    if ok {
      MarkSpentKeeps(env, s2);
      var s3 := s2.(running := MarkSpent(s2.running, env.maxNew));
      FreeFinishedKeeps(env, s3, |s3.running|);
    }
  }

  /** A pass without the losing branch succeeds and keeps every sequence on its own greedy path. */
  lemma PassHealthy(env: Env, s: Sched)
    requires s.cache.pool.blockSize > 0 && Healthy(env, s) && env.eos != [] && !PassBumps(env, s)
    ensures DecodePart(env, s).0 && Healthy(env, DecodePart(env, s).1)
  {
    hide WellFormed, Truthful, RunGroups, FreeFinished, StepGroups, BumpsAt;
    FreeFinishedKeeps(env, s, |s.running|);
    var s1 := FreeFinished(s, |s.running|);
    StepGroupsGroup(s1);
    GroupsHealthy(env, s1, StepGroups(s1), |StepGroups(s1)|);
    var s2 := RunGroups(env, s1, StepGroups(s1), |StepGroups(s1)|).1;
    MarkSpentKeeps(env, s2);
    var s3 := s2.(running := MarkSpent(s2.running, env.maxNew));
    FreeFinishedKeeps(env, s3, |s3.running|);
  }
}
