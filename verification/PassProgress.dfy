/** When a scheduler pass gets nowhere: exactly when every running sequence is refused its block. */
module PassProgress {
  import opened Prelude
  import opened BlockPool
  import opened PagedCacheRuntime
  import opened DecodeStep
  import opened DecodeSoundness
  import opened ContinuousBatch
  import opened SchedulerPass

  /** No running sequence has ended, and the pool has no block for any of them. */
  ghost predicate Starved(s: Sched)
    requires s.cache.pool.blockSize > 0
  {
    forall i :: 0 <= i < |s.running| && s.running[i].Some? ==>
      var slot := s.running[i].value.slot;
      !slot.finished && !Fits(s.cache.pool, slot.requestId, TokensAfter(slot))
  }

  /** Unfinished sequences have budget left, as between passes. */
  ghost predicate StepsBelow(env: Env, s: Sched) {
    forall i :: 0 <= i < |s.running| && s.running[i].Some? && !s.running[i].value.slot.finished ==>
      s.running[i].value.slot.decodeStep < env.maxNew
  }

  lemma {:induction false} NobodyFits(p: Pool, slots: seq<DecodeSlot>, sel: seq<nat>, k: nat)
    requires p.blockSize > 0 && k <= |sel| && Indexes(sel, |slots|)
    ensures GrowSelected(p, slots, sel, k).1 == [] <==>
              forall j :: 0 <= j < k ==> !Fits(p, slots[sel[j]].requestId, TokensAfter(slots[sel[j]]))
  {
    if k > 0 {
      hide Fits, Grow;
      NobodyFits(p, slots, sel, k - 1);
      if GrowSelected(p, slots, sel, k - 1).1 == [] {
        NothingGrown(p, slots, sel, k - 1);
      }
    }
  }

  lemma RefusedMeans(c: Cache, slots: seq<DecodeSlot>, step: nat)
    requires c.pool.blockSize > 0
    requires forall i :: 0 <= i < |slots| ==> TakesPart(slots[i], step)
    ensures Decodable(c, slots, step).1 == [] <==>
              forall i :: 0 <= i < |slots| ==> !Fits(c.pool, slots[i].requestId, TokensAfter(slots[i]))
  {
    var sel := Forward(slots, step, |slots|);
    ForwardIsSelection(slots, step, |slots|);
    hide Fits;
    NobodyFits(c.pool, slots, sel, |sel|);
    if Decodable(c, slots, step).1 == [] {
      forall i | 0 <= i < |slots|
        ensures !Fits(c.pool, slots[i].requestId, TokensAfter(slots[i]))
      {
        assert i in sel;
        var j :| 0 <= j < |sel| && sel[j] == i;
      }
    }
  }

  /** Collecting empties places: it changes nothing exactly when no sequence has ended. */
  lemma FreeLoad(s: Sched, maxNew: nat)
    ensures var s' := FreeFinished(s, |s.running|);
            if exists i :: 0 <= i < |s.running| && s.running[i].Some? && s.running[i].value.slot.finished
            then Load(s'.running, maxNew) < Load(s.running, maxNew) else s' == s
  {
    FreeFinishedAt(s, |s.running|);
    var s' := FreeFinished(s, |s.running|);
    if exists i :: 0 <= i < |s.running| && s.running[i].Some? && s.running[i].value.slot.finished {
      var i :| 0 <= i < |s.running| && s.running[i].Some? && s.running[i].value.slot.finished;
      LoadMonotone(s.running, s'.running, maxNew);
      assert LoadAt(s'.running[i], maxNew) < LoadAt(s.running[i], maxNew);
    }
  }

  /** A sequence without a block sits in a group all of which is refused. */
  lemma StarvedGroups(env: Env, s: Sched)
    requires s.cache.pool.blockSize > 0
    requires forall i :: 0 <= i < |s.running| && s.running[i].Some? ==> !s.running[i].value.slot.finished
    ensures Starved(s) <==> forall g :: 0 <= g < |StepGroups(s)| ==> RefusedAt(env, s, StepGroups(s), g)
  {
    var groups := StepGroups(s);
    StepGroupsGroup(s);
    hide Fits, Decodable, StepGroups;
    forall g | 0 <= g < |groups|
      ensures RefusedAt(env, s, groups, g) <==>
              forall k :: 0 <= k < |groups[g].1| ==>
                !Fits(s.cache.pool, s.running[groups[g].1[k]].value.slot.requestId,
                      TokensAfter(s.running[groups[g].1[k]].value.slot))
    {
      var idxs, slots := groups[g].1, BatchOf(s.running, groups[g].1);
      RefusedMeans(s.cache, slots, groups[g].0);
      assert forall k :: 0 <= k < |idxs| ==> slots[k] == s.running[idxs[k]].value.slot;
    }
    if forall g :: 0 <= g < |groups| ==> RefusedAt(env, s, groups, g) {
      forall i: nat | i < |s.running| && s.running[i].Some?
        ensures !Fits(s.cache.pool, s.running[i].value.slot.requestId, TokensAfter(s.running[i].value.slot))
      {
        var g :| 0 <= g < |groups| && i in groups[g].1;
        assert RefusedAt(env, s, groups, g);
      }
    }
  }

  lemma StepGroupsBelow(env: Env, s: Sched)
    requires StepsBelow(env, s)
    ensures forall g :: 0 <= g < |StepGroups(s)| ==> StepGroups(s)[g].0 < env.maxNew
  {
    StepGroupsGroup(s);
    var groups := StepGroups(s);
    forall g | 0 <= g < |groups|
      ensures groups[g].0 < env.maxNew
    {
      var i := groups[g].1[0];
      assert s.running[i].Some?;
    }
  }

  lemma MarkLoad(running: seq<Option<RunningSlot>>, maxNew: nat)
    ensures Load(MarkSpent(running, maxNew), maxNew) <= Load(running, maxNew)
    ensures (forall i :: 0 <= i < |running| && running[i].Some? ==>
             !MarkSpent(running, maxNew)[i].value.slot.finished) ==> MarkSpent(running, maxNew) == running
  {
    LoadMonotone(running, MarkSpent(running, maxNew), maxNew);
  }

  /** A pass leaves the schedule as it is exactly when all its sequences are starved; any other pass
      that does not fail comes closer to the end. */
  lemma PassStill(env: Env, s: Sched)
    requires s.cache.pool.blockSize > 0 && StepsBelow(env, s) && env.eos != []
    ensures DecodePart(env, s) == (true, s) <==> Starved(s)
    ensures DecodePart(env, s).0 && !Starved(s) ==>
              Load(DecodePart(env, s).1.running, env.maxNew) < Load(s.running, env.maxNew)
  {
    FreeLoad(s, env.maxNew);
    var s1 := FreeFinished(s, |s.running|);
    if s1 == s {
      StarvedPass(env, s);
    } else {
      hide RunGroups, FreeFinished;
      AfterCollecting(env, s1);
    }
  }

  lemma StarvedPass(env: Env, s: Sched)
    requires s.cache.pool.blockSize > 0 && StepsBelow(env, s) && env.eos != []
    requires FreeFinished(s, |s.running|) == s
    requires forall i :: 0 <= i < |s.running| && s.running[i].Some? ==> !s.running[i].value.slot.finished
    ensures DecodePart(env, s) == (true, s) <==> Starved(s)
    ensures DecodePart(env, s).0 && !Starved(s) ==>
              Load(DecodePart(env, s).1.running, env.maxNew) < Load(s.running, env.maxNew)
  {
    var groups := StepGroups(s);
    StepGroupsGroup(s);
    StepGroupsBelow(env, s);
    StarvedGroups(env, s);
    GroupsStill(env, s, groups, |groups|);
    hide RunGroups, FreeFinished, Starved, StepGroups, RefusedAt, Load;
    AfterCollecting(env, s);
  }

  /** The rest of a pass from the groups on. */
  lemma AfterCollecting(env: Env, s1: Sched)
    requires s1.cache.pool.blockSize > 0
    ensures var (ok, s2) := RunGroups(env, s1, StepGroups(s1), |StepGroups(s1)|);
            var s3 := s2.(running := MarkSpent(s2.running, env.maxNew));
            var s4 := FreeFinished(s3, |s3.running|);
            ok ==> Load(s4.running, env.maxNew) <= Load(s2.running, env.maxNew) <= Load(s1.running, env.maxNew)
                   && (s2 == s1 &&
                       (forall i :: 0 <= i < |s1.running| && s1.running[i].Some? ==>
                        !s1.running[i].value.slot.finished && s1.running[i].value.slot.decodeStep < env.maxNew) ==>
                          s4 == s1)
  {
    hide RunGroups, Load, StepGroups;
    var (ok, s2) := RunGroups(env, s1, StepGroups(s1), |StepGroups(s1)|);
    if ok {
      GroupsLoad(env, s1, StepGroups(s1), |StepGroups(s1)|);
      MarkLoad(s2.running, env.maxNew);
      var s3 := s2.(running := MarkSpent(s2.running, env.maxNew));
      FreeLoad(s3, env.maxNew);
      if s2 == s1 && forall i :: 0 <= i < |s1.running| && s1.running[i].Some? ==>
        !s1.running[i].value.slot.finished && s1.running[i].value.slot.decodeStep < env.maxNew {
        assert s3.running == s1.running;
      }
    }
  }

  /** After a pass every sequence still running has budget left and has not ended. */
  lemma PassStepsBelow(env: Env, s: Sched)
    requires s.cache.pool.blockSize > 0 && DecodePart(env, s).0
    ensures StepsBelow(env, DecodePart(env, s).1)
    ensures forall i ::
              0 <= i < |s.running| && DecodePart(env, s).1.running[i].Some? ==>
                !DecodePart(env, s).1.running[i].value.slot.finished
  {
    var s1 := FreeFinished(s, |s.running|);
    var s2 := RunGroups(env, s1, StepGroups(s1), |StepGroups(s1)|).1;
    var s3 := s2.(running := MarkSpent(s2.running, env.maxNew));
    hide RunGroups, StepGroups;
    FreeFinishedAt(s3, |s3.running|);
  }
}
