/** Who holds which blocks during a run, and that a finished run holds none. */
module BlockAccounts {
  import opened Prelude
  import opened BlockPool
  import opened PagedCacheRuntime
  import opened DecodeStep
  import opened DecodeSoundness
  import opened PrefillInput
  import opened PagedBatchPrefill
  import opened ContinuousBatch
  import opened DecodePass
  import opened SchedulerPass
  import opened Admission
  import opened BatchRuns

  ghost predicate RunsId(running: seq<Option<RunningSlot>>, id: nat) {
    exists i :: 0 <= i < |running| && running[i].Some? && running[i].value.slot.requestId == id
  }

  /** Of the ids handed out since `base` only the running ones hold blocks; all other ids hold what
      they held at entry. */
  ghost predicate Accounted(entry: Pool, base: nat, s: Sched) {
    && base <= s.nextId
    && (forall i :: 0 <= i < |s.running| && s.running[i].Some? ==> base <= s.running[i].value.slot.requestId)
    && (forall id: nat :: id < base || s.nextId <= id ==> Table(s.cache.pool, id) == Table(entry, id))
    && (forall id: nat :: base <= id < s.nextId && !RunsId(s.running, id) ==> Table(s.cache.pool, id) == [])
  }

  lemma FreeStepAccounted(entry: Pool, base: nat, s: Sched, i: nat)
    requires Accounted(entry, base, s) && i < |s.running|
    requires s.running[i].Some? ==> s.running[i].value.slot.requestId < s.nextId
    ensures Accounted(entry, base, FreeStep(s, i))
  {
    var s' := FreeStep(s, i);
    if s' != s {
      var gone := s.running[i].value.slot.requestId;
      forall id: nat | id != gone && RunsId(s.running, id)
        ensures RunsId(s'.running, id)
      {
        var j :| 0 <= j < |s.running| && s.running[j].Some? && s.running[j].value.slot.requestId == id;
        assert s'.running[j].Some?;
      }
    }
  }

  lemma {:induction false} FreeAccounted(env: Env, entry: Pool, base: nat, s: Sched, k: nat)
    requires k <= |s.running| && WellFormed(env, s) && Accounted(entry, base, s)
    ensures Accounted(entry, base, FreeFinished(s, k))
  {
    hide Accounted;
    if k > 0 {
      FreeAccounted(env, entry, base, s, k - 1);
      FreeFinishedKeeps(env, s, k - 1);
      hide WellFormed;
      FreeStepAccounted(entry, base, FreeFinished(s, k - 1), k - 1);
    }
  }

  lemma SamePlacesSameIds(a: seq<Option<RunningSlot>>, b: seq<Option<RunningSlot>>, id: nat)
    requires |a| == |b| && forall i :: 0 <= i < |a| ==> SamePlace(a[i], b[i])
    ensures RunsId(a, id) <==> RunsId(b, id)
  {
    if RunsId(a, id) {
      var i :| 0 <= i < |a| && a[i].Some? && a[i].value.slot.requestId == id;
      assert b[i].Some?;
    }
    if RunsId(b, id) {
      var i :| 0 <= i < |b| && b[i].Some? && b[i].value.slot.requestId == id;
      assert a[i].Some?;
    }
  }

  /** Accounts depend on places and tables only. */
  lemma AccountsFrame(entry: Pool, base: nat, s: Sched, t: Sched)
    requires Accounted(entry, base, s) && t.nextId == s.nextId
    requires |s.running| == |t.running| && forall i :: 0 <= i < |s.running| ==> SamePlace(s.running[i], t.running[i])
    requires forall id: nat :: !RunsId(s.running, id) ==> Table(t.cache.pool, id) == Table(s.cache.pool, id)
    requires forall i :: 0 <= i < |s.running| && s.running[i].Some? ==> s.running[i].value.slot.requestId < s.nextId
    ensures Accounted(entry, base, t)
  {
    forall id: nat
      ensures RunsId(s.running, id) <==> RunsId(t.running, id)
    {
      SamePlacesSameIds(s.running, t.running, id);
    }
  }

  lemma {:induction false} GroupsTables(env: Env, s: Sched, groups: Groups, k: nat, id: nat)
    requires WellFormed(env, s) && k <= |groups| && !RunsId(s.running, id)
    ensures Table(RunGroups(env, s, groups, k).1.cache.pool, id) == Table(s.cache.pool, id)
  {
    hide WellFormed, GroupOf, RunsId, GroupStep;
    PoolSized(env, s);
    if k > 0 {
      GroupsTables(env, s, groups, k - 1, id);
      GroupsWellFormed(env, s, groups, k - 1);
      var (ok, t) := RunGroups(env, s, groups, k - 1);
      if ok && GroupOf(t.running, groups[k - 1].0, groups[k - 1].1) {
        forall i | 0 <= i < |s.running|
          ensures SamePlace(s.running[i], t.running[i])
        {
          GroupsAt(env, s, groups, k - 1, i);
        }
        SamePlacesSameIds(s.running, t.running, id);
        GroupTables(env, t, groups[k - 1].0, groups[k - 1].1, id);
      }
    }
  }

  lemma GroupTables(env: Env, s: Sched, step: nat, idxs: seq<nat>, id: nat)
    requires WellFormed(env, s) && GroupOf(s.running, step, idxs) && !RunsId(s.running, id)
    ensures Table(GroupStep(env, s, step, idxs).1.cache.pool, id) == Table(s.cache.pool, id)
  {
    var slots := BatchOf(s.running, idxs);
    hide DecodeAtStep, PutBack;
    StepPartitions(env.net, env.numBlocks, s.cache, slots, step, env.maxNew, env.eos);
    forall k | 0 <= k < |slots|
      ensures slots[k].requestId != id
    {
      assert s.running[idxs[k]].Some?;
    }
  }

  lemma RunningBelow(env: Env, s: Sched)
    requires WellFormed(env, s)
    ensures s.cache.pool.blockSize > 0 && Valid(s.cache.pool, env.numBlocks)
    ensures forall i :: 0 <= i < |s.running| && s.running[i].Some? ==> s.running[i].value.slot.requestId < s.nextId
  {
  }

  lemma GroupsAccounted(env: Env, entry: Pool, base: nat, s: Sched, groups: Groups, k: nat)
    requires WellFormed(env, s) && Accounted(entry, base, s) && k <= |groups|
    ensures Accounted(entry, base, RunGroups(env, s, groups, k).1)
  {
    hide WellFormed, Accounted, RunGroups, RunsId;
    RunningBelow(env, s);
    var t := RunGroups(env, s, groups, k).1;
    forall i | 0 <= i < |s.running|
      ensures SamePlace(s.running[i], t.running[i])
    {
      GroupsAt(env, s, groups, k, i);
    }
    forall id: nat | !RunsId(s.running, id)
      ensures Table(t.cache.pool, id) == Table(s.cache.pool, id)
    {
      GroupsTables(env, s, groups, k, id);
    }
    AccountsFrame(entry, base, s, t);
  }

  lemma DecodeAccounted(env: Env, entry: Pool, base: nat, s: Sched)
    requires s.cache.pool.blockSize > 0 && WellFormed(env, s) && Accounted(entry, base, s)
    ensures Accounted(entry, base, DecodePart(env, s).1)
  {
    hide WellFormed, Accounted, RunGroups, FreeFinished, StepGroups;
    FreeAccounted(env, entry, base, s, |s.running|);
    FreeFinishedKeeps(env, s, |s.running|);
    var s1 := FreeFinished(s, |s.running|);
    GroupsAccounted(env, entry, base, s1, StepGroups(s1), |StepGroups(s1)|);
    GroupsWellFormed(env, s1, StepGroups(s1), |StepGroups(s1)|);
    var (ok, s2) := RunGroups(env, s1, StepGroups(s1), |StepGroups(s1)|);
    if ok {
      MarkSpentKeeps(env, s2);
      var s3 := s2.(running := MarkSpent(s2.running, env.maxNew));
      RunningBelow(env, s2);
      MarkAccounted(env, entry, base, s2);
      FreeAccounted(env, entry, base, s3, |s3.running|);
    }
  }

  lemma MarkAccounted(env: Env, entry: Pool, base: nat, s: Sched)
    requires Accounted(entry, base, s)
    requires forall i :: 0 <= i < |s.running| && s.running[i].Some? ==> s.running[i].value.slot.requestId < s.nextId
    ensures Accounted(entry, base, s.(running := MarkSpent(s.running, env.maxNew)))
  {
    AccountsFrame(entry, base, s, s.(running := MarkSpent(s.running, env.maxNew)));
  }

  /** The wave's prefill grows the newcomers' tables and nobody else's. */
  lemma WaveTables(env: Env, s: Sched, w: nat, s': Sched, id: nat)
    requires WellFormed(env, s) && Admits(env, s, w, s')
    requires id < s.nextId || s.nextId + w <= id
    ensures Table(s'.cache.pool, id) == Table(s.cache.pool, id)
  {
    var ids, lens, next := RequestIds(s.nextId, w), WaveLens(env, s, w), FirstTokens(env.net, WavePrompts(env, s, w));
    RequestIdsRange(s.nextId, w);
    hide PlaceAll, FreePlaces, TrimFinished, GrowPrompts;
    GrowPromptsValid(s.cache.pool, ids, lens, w, env.numBlocks);
    assert ids[..w] == ids;
    TrimFinishedTables(GrowPrompts(s.cache.pool, ids, lens, w), ids, lens, next, env.eos, w, env.numBlocks);
    assert forall i :: 0 <= i < w ==> ids[i] in ids;
  }

  lemma AdmitAccounted(env: Env, entry: Pool, base: nat, s: Sched, w: nat, s': Sched)
    requires WellFormed(env, s) && Admits(env, s, w, s') && Accounted(entry, base, s)
    ensures Accounted(entry, base, s')
  {
    var entries :=
      Entries(Admitted(env, s), s.nextId, WaveLens(env, s, w), FirstTokens(env.net, WavePrompts(env, s, w)), env.eos);
    hide Prefilled, PlaceAll, FreePlaces;
    forall i | 0 <= i < |s'.running| && s'.running[i].Some?
      ensures base <= s'.running[i].value.slot.requestId
    {
      var j := PlacedCase(s.running, entries, i);
    }
    forall id: nat | id < s.nextId || s.nextId + w <= id
      ensures Table(s'.cache.pool, id) == Table(s.cache.pool, id)
    {
      hide WellFormed, Admits;
      WaveTables(env, s, w, s', id);
    }
    forall id: nat | base <= id < s.nextId + w && !RunsId(s'.running, id)
      ensures Table(s'.cache.pool, id) == []
    {
      hide WellFormed;
      StillRuns(env, s, w, s', id);
    }
  }

  lemma StillRuns(env: Env, s: Sched, w: nat, s': Sched, id: nat)
    requires Admits(env, s, w, s')
    ensures RunsId(s.running, id) || s.nextId <= id < s.nextId + w ==> RunsId(s'.running, id)
  {
    var entries :=
      Entries(Admitted(env, s), s.nextId, WaveLens(env, s, w), FirstTokens(env.net, WavePrompts(env, s, w)), env.eos);
    hide Prefilled, PlaceAll, FreePlaces;
    if RunsId(s.running, id) {
      var i :| 0 <= i < |s.running| && s.running[i].Some? && s.running[i].value.slot.requestId == id;
      var j := PlacedCase(s.running, entries, i);
      assert s'.running[i].Some?;
    } else if s.nextId <= id < s.nextId + w {
      PlacedNew(s.running, entries, id - s.nextId);
      assert s'.running[FreePlaces(s.running, |s.running|)[id - s.nextId]].Some?;
    }
  }

  lemma PassAccounted(env: Env, entry: Pool, base: nat, s: Sched, s': Sched)
    requires WellFormed(env, s) && Accounted(entry, base, s) && Pass(env, s, s')
    ensures Accounted(entry, base, s')
  {
    hide WellFormed, Accounted, DecodePart, Admits;
    DecodeAccounted(env, entry, base, s);
    PassWellFormed(env, s);
    var t := DecodePart(env, s).1;
    if Wave(env, t) > 0 {
      AdmitAccounted(env, entry, base, t, Wave(env, t), s');
    }
  }

  // ----- nothing is left behind

  /** Pools over the same blocks with the same tables have the same blocks free. */
  lemma SameTablesSameFree(p: Pool, q: Pool, numBlocks: nat)
    requires Valid(p, numBlocks) && Valid(q, numBlocks)
    requires forall id: nat :: Table(p, id) == Table(q, id)
    ensures Elements(p.free) == Elements(q.free) && |p.free| == |q.free|
  {
    forall id: nat, b: nat
      ensures Owns(p, id, b) <==> Owns(q, id, b)
    {
      assert Owns(p, id, b) <==> b in Table(p, id);
      assert Owns(q, id, b) <==> b in Table(q, id);
    }
    forall b: nat
      ensures b in p.free <==> b in q.free
    {
    }
    NoDupSetSize(p.free);
    NoDupSetSize(q.free);
  }

  /** A run whose clients are all done has returned every block it took. */
  lemma RunReturnsBlocks(env: Env, entry: Pool, base: nat, s: Sched)
    requires WellFormed(env, s) && Accounted(entry, base, s) && AllDone(s) && Valid(entry, env.numBlocks)
    requires forall id: nat :: base <= id < s.nextId ==> Table(entry, id) == []
    ensures forall id: nat :: Table(s.cache.pool, id) == Table(entry, id)
    ensures Elements(s.cache.pool.free) == Elements(entry.free) && |s.cache.pool.free| == |entry.free|
  {
    forall id: nat
      ensures Table(s.cache.pool, id) == Table(entry, id)
    {
      assert !RunsId(s.running, id);
    }
    SameTablesSameFree(s.cache.pool, entry, env.numBlocks);
  }
}
