/** Every client is served: in a roomy pool a run is refused nothing, never stops short of the end and
    never gets stuck. */
module ServedRuns {
  import opened Prelude
  import opened BlockPool
  import opened PagedCacheRuntime
  import opened DecodeStep
  import opened DecodeSoundness
  import opened PrefillInput
  import opened PagedBatchPrefill
  import opened ContinuousBatch
  import opened CapacityBounds
  import opened SchedulerPass
  import opened PassProgress
  import opened Admission
  import opened BatchRuns
  import opened BlockAccounts
  import opened CapacityRuns

  /** Between passes of a run in a roomy pool. */
  ghost predicate Served(env: Env, entry: Pool, base: nat, limit: nat, s: Sched) {
    && s.cache.pool.blockSize > 0
    && WellFormed(env, s)
    && Healthy(env, s)
    && Roomy(env, s.cache.pool.blockSize, limit)
    && Accounted(entry, base, s)
    && Unowned(entry)
    && NoneAbove(s.cache.pool, limit)
    && StepsBelow(env, s)
  }

  lemma StartServed(env: Env, c: Cache, base: nat, limit: nat)
    requires ValidCache(c, env.numBlocks) && Unowned(c.pool) && Roomy(env, c.pool.blockSize, limit)
    ensures Served(env, c.pool, base, limit, Start(env, c, base))
  {
    StartHealthy(env, c, base);
  }

  lemma PromptLimit(env: Env, bs: nat, limit: nat, c: nat)
    requires bs > 0 && Roomy(env, bs, limit) && c < |env.lens|
    ensures DivCeil(env.lens[c], bs) <= limit
  {
    DivCeilMonotone(env.lens[c], env.lens[c] + env.maxNew, bs);
  }

  lemma GrownSize(env: Env, entry: Pool, base: nat, limit: nat, s: Sched, w: nat, i: nat)
    requires Queued(env, s) && WellFormed(env, s) && Roomy(env, s.cache.pool.blockSize, limit)
    requires Accounted(entry, base, s) && Unowned(entry)
    requires i < w == Wave(env, s)
    ensures |Table(GrowPrompts(s.cache.pool, RequestIds(s.nextId, w), WaveLens(env, s, w), w), s.nextId + i)| <= limit
  {
    hide WellFormed, Accounted, Unowned, Roomy, Wave, GrowPrompts, DivCeil, RunningIds, PromptsFit, Table;
    var ids, lens := RequestIds(s.nextId, w), WaveLens(env, s, w);
    AdmittedWaveFits(env, entry, base, s);
    HeldNow(env, entry, base, s);
    RequestIdsRange(s.nextId, w);
    PromptLimit(env, s.cache.pool.blockSize, limit, Admitted(env, s) + i);
    WaveTable(s.cache.pool, ids, lens, w, i);
  }

  lemma TrimmedSize(env: Env, s: Sched, w: nat, s': Sched, id: nat)
    requires WellFormed(env, s) && Admits(env, s, w, s')
    ensures |Table(s'.cache.pool,
                   id)| <= |Table(GrowPrompts(s.cache.pool, RequestIds(s.nextId, w), WaveLens(env, s, w), w), id)|
  {
    var ids, lens, next := RequestIds(s.nextId, w), WaveLens(env, s, w), FirstTokens(env.net, WavePrompts(env, s, w));
    RequestIdsRange(s.nextId, w);
    hide PlaceAll, FreePlaces, TrimFinished, GrowPrompts;
    GrowPromptsValid(s.cache.pool, ids, lens, w, env.numBlocks);
    TrimFinishedTables(GrowPrompts(s.cache.pool, ids, lens, w), ids, lens, next, env.eos, w, env.numBlocks);
  }

  lemma WaveTableSize(env: Env, entry: Pool, base: nat, limit: nat, s: Sched, s': Sched, id: nat)
    requires Queued(env, s) && WellFormed(env, s) && Roomy(env, s.cache.pool.blockSize, limit)
    requires Accounted(entry, base, s) && Unowned(entry)
    requires Wave(env, s) > 0 && Admits(env, s, Wave(env, s), s')
    requires s.nextId <= id < s.nextId + Wave(env, s)
    ensures |Table(s'.cache.pool, id)| <= limit
  {
    hide WellFormed, Accounted, Admits, Roomy, GrowPrompts, Wave;
    GrownSize(env, entry, base, limit, s, Wave(env, s), id - s.nextId);
    TrimmedSize(env, s, Wave(env, s), s', id);
  }

  lemma AdmitLimit(env: Env, entry: Pool, base: nat, limit: nat, s: Sched, s': Sched)
    requires Queued(env, s) && WellFormed(env, s) && Roomy(env, s.cache.pool.blockSize, limit)
    requires Accounted(entry, base, s) && Unowned(entry) && NoneAbove(s.cache.pool, limit)
    requires Wave(env, s) > 0 && Admits(env, s, Wave(env, s), s')
    ensures NoneAbove(s'.cache.pool, limit)
  {
    var p, q := s.cache.pool, s'.cache.pool;
    hide WellFormed, Roomy, Accounted, Unowned, Admits, Wave;
    forall id: nat
      ensures |Table(q, id)| <= limit
    {
      if s.nextId <= id < s.nextId + Wave(env, s) {
        WaveTableSize(env, entry, base, limit, s, s', id);
      } else {
        WaveTables(env, s, Wave(env, s), s', id);
        assert |Table(p, id)| <= limit;
      }
    }
  }

  lemma DecodeServed(env: Env, entry: Pool, base: nat, limit: nat, s: Sched)
    requires Served(env, entry, base, limit, s)
    ensures Served(env, entry, base, limit, DecodePart(env, s).1) && DecodePart(env, s).0 && !PassRefuses(env, s)
  {
    hide WellFormed, Truthful, Accounted, NoneAbove, StepsBelow, Unowned, Roomy, DecodePart, PassRefuses;
    PassRoomy(env, entry, base, limit, s);
    PassWellFormed(env, s);
    PassStepsBelow(env, s);
    DecodeAccounted(env, entry, base, s);
  }

  lemma AdmitServed(env: Env, entry: Pool, base: nat, limit: nat, s: Sched, s': Sched)
    requires Served(env, entry, base, limit, s) && Queued(env, s) && Wave(env, s) > 0
    requires Admits(env, s, Wave(env, s), s')
    ensures Served(env, entry, base, limit, s')
  {
    BlockSizeKept(env, s, Wave(env, s), s');
    assert env.maxNew > 0;
    hide WellFormed, Truthful, Accounted, NoneAbove, StepsBelow, Unowned, Roomy, Admits;
    AdmitWellFormed(env, s, Wave(env, s), s');
    AdmitHealthy(env, s, Wave(env, s), s');
    AdmitAccounted(env, entry, base, s, Wave(env, s), s');
    AdmitLimit(env, entry, base, limit, s, s');
    AdmitStepsBelow(env, s, Wave(env, s), s');
  }

  lemma BlockSizeKept(env: Env, s: Sched, w: nat, s': Sched)
    requires Admits(env, s, w, s')
    ensures s'.cache.pool.blockSize == s.cache.pool.blockSize
  {
  }

  lemma PassServed(env: Env, entry: Pool, base: nat, limit: nat, s: Sched, s': Sched)
    requires Served(env, entry, base, limit, s) && Pass(env, s, s')
    ensures Served(env, entry, base, limit, s')
  {
    hide Served, DecodePart, Admits, PassRefuses;
    DecodeServed(env, entry, base, limit, s);
    if Wave(env, DecodePart(env, s).1) > 0 {
      AdmitServed(env, entry, base, limit, DecodePart(env, s).1, s');
    }
  }

  /** In a roomy pool nobody running is ever starved. */
  lemma NobodyStarves(env: Env, entry: Pool, base: nat, limit: nat, s: Sched)
    requires Served(env, entry, base, limit, s) && Starved(s)
    ensures forall i :: 0 <= i < |s.running| ==> s.running[i].None?
  {
    HeldByRunning(env, entry, base, s);
    hide RunningIds, Sound, Accounted, DivCeil;
    forall i | 0 <= i < |s.running| && s.running[i].Some?
      ensures false
    {
      var entrySlot := s.running[i].value;
      WithinLimit(env, s.cache.pool.blockSize, limit, s.cache.pool, s.cache.kv, entrySlot.clientIndex, entrySlot.slot);
      RoomFor(env, s, RunningIds(s.running), limit, entrySlot.slot.requestId, TokensAfter(entrySlot.slot));
    }
  }

  lemma RoomFor(env: Env, s: Sched, ids: seq<nat>, limit: nat, id: nat, tokens: nat)
    requires WellFormed(env, s) && HeldOnlyBy(s.cache.pool, ids) && NoneAbove(s.cache.pool, limit) && NoDup(ids)
    requires id in ids
    requires |ids| <= env.maxSlots && env.maxSlots > 0 && env.maxSlots * limit <= Capacity(env.numBlocks)
    requires 0 < DivCeil(tokens, s.cache.pool.blockSize) <= limit
    ensures Fits(s.cache.pool, id, tokens)
  {
    if env.numBlocks == 0 {
      ZeroLimit(limit, env.maxSlots);
      assert false;
    } else {
      FitsWithinLimit(s.cache.pool, env.numBlocks, ids, limit, env.maxSlots, id, tokens);
    }
  }

  /** The head of the queue is admitted when nothing runs. */
  lemma HeadAdmitted(env: Env, entry: Pool, base: nat, limit: nat, s: Sched)
    requires Served(env, entry, base, limit, s) && Queued(env, s) && s.waiting != []
    requires forall i :: 0 <= i < |s.running| ==> s.running[i].None?
    ensures Wave(env, s) > 0
  {
    var lens := env.lens[Admitted(env, s)..];
    NobodyRuns(s.running);
    assert s.running[..|s.running|] == s.running;
    FreePlacesAre(s.running, |s.running|);
    assert lens[0] == env.lens[Admitted(env, s)];
    assert MayAdmit(lens, s.cache.pool.blockSize, 0, 0, Capacity(env.numBlocks), 0);
  }

  lemma {:induction false} NobodyRuns(running: seq<Option<RunningSlot>>)
    requires forall i :: 0 <= i < |running| ==> running[i].None?
    ensures RunningIds(running) == []
  {
    if running != [] {
      NobodyRuns(running[..|running| - 1]);
    }
  }

  /** A roomy run never gets stuck: a pass that is its own successor has nothing left to do. */
  lemma NeverStuck(env: Env, entry: Pool, base: nat, limit: nat, s: Sched)
    requires Served(env, entry, base, limit, s) && Pass(env, s, s)
    ensures AllDone(s)
  {
    PassMeasure(env, s, s);
    hide Served, Starved, DecodePart;
    NobodyStarves(env, entry, base, limit, s);
    if s.waiting != [] {
      HeadAdmitted(env, entry, base, limit, s);
      assert false;
    }
  }

  /** The prefill of every wave meets its condition. */
  lemma WavePrefillable(env: Env, entry: Pool, base: nat, limit: nat, s: Sched)
    requires Served(env, entry, base, limit, s) && Queued(env, s) && Wave(env, s) > 0
    ensures s.cache.pool.blockSize > 0 && env.eos != []
    ensures var w := Wave(env, s);
            && PromptsFit(s.cache.pool, RequestIds(s.nextId, w), WaveLens(env, s, w), w)
            && forall i :: 0 <= i < w ==> WaveLens(env, s, w)[i] > 0
  {
    AdmittedWaveFits(env, entry, base, s);
  }

  /** In every state of every run in a roomy pool: all sequences are on their own greedy path, the next
      pass is refused nothing and cannot fail, and unless all clients are done it comes closer to the end. */
  lemma {:induction false} RoomyRuns(env: Env, c: Cache, base: nat, limit: nat, trace: seq<Sched>, i: nat)
    requires ValidCache(c, env.numBlocks) && Unowned(c.pool) && Roomy(env, c.pool.blockSize, limit)
    requires i < |trace| && trace[0] == Start(env, c, base) && BatchRuns.Run(env, trace)
    ensures Served(env, c.pool, base, limit, trace[i])
    ensures DecodePart(env, trace[i]).0 && !PassRefuses(env, trace[i])
    ensures i + 1 < |trace| && !AllDone(trace[i]) ==>
              Measure(trace[i + 1].waiting, trace[i + 1].running, env.maxNew) < Measure(trace[i].waiting,
                                                                                        trace[i].running, env.maxNew)
  {
    hide Served, DecodePart, PassRefuses, Pass, AllDone;
    if i == 0 {
      StartServed(env, c, base, limit);
    } else {
      RoomyRuns(env, c, base, limit, trace, i - 1);
      assert PassAt(env, trace, i);
      PassServed(env, c.pool, base, limit, trace[i - 1], trace[i]);
    }
    DecodeServed(env, c.pool, base, limit, trace[i]);
    if i + 1 < |trace| && !AllDone(trace[i]) {
      assert PassAt(env, trace, i + 1);
      RoomyProgress(env, c.pool, base, limit, trace[i], trace[i + 1]);
    }
  }

  lemma RoomyProgress(env: Env, entry: Pool, base: nat, limit: nat, s: Sched, s': Sched)
    requires Served(env, entry, base, limit, s) && Pass(env, s, s') && !AllDone(s)
    ensures Measure(s'.waiting, s'.running, env.maxNew) < Measure(s.waiting, s.running, env.maxNew)
  {
    PassMeasure(env, s, s');
    hide Served, Pass, AllDone;
    if s' == s {
      NeverStuck(env, entry, base, limit, s);
      assert false;
    }
  }
}
