/** The scheduler object: `run_continuous_prepared` from the first client to the last. */
module ContinuousScheduler {
  import opened Prelude
  import opened Decoding
  import opened BlockPool
  import opened PagedKvCache
  import opened PagedCacheRuntime
  import opened DecodeStep
  import opened PrefillInput
  import opened PagedBatchPrefill
  import opened ContinuousBatch
  import opened DecodePass
  import opened SchedulerPass
  import opened PassProgress
  import opened Admission
  import opened BatchRuns
  import opened BlockAccounts
  import opened CapacityRuns
  import opened ServedRuns
  import opened WaveInput
  import opened BatchScheduler

  /** `Stalled` stands for the source's loop running on for ever. */
  datatype RunResult = Done(outputs: seq<seq<Token>>) | Failed(error: string) | Stalled

  /** The segments of a run, and where their audio lies. */
  datatype Job = Job(prepared: seq<PreparedInputs>, audioId: Token, padId: Token, audio: seq<AudioRow>,
                     offsets: seq<nat>, audioLens: seq<nat>, packed: bool)

  ghost predicate JobFor(env: Env, job: Job) {
    && EnvFor(env, job.prepared, job.audioId, job.audio)
    && job.padId != job.audioId
    && (forall i :: 0 <= i < |job.prepared| ==> CleanRow(job.prepared[i], job.audioId))
    && |job.offsets| == |job.audioLens| == |job.prepared|
    && forall c :: 0 <= c < |job.prepared| ==>
         job.offsets[c] == AudioOffset(ClientRows(job.prepared), job.audioId, c) &&
           job.audioLens[c] == CountAudio(ClientRows(job.prepared)[c], job.audioId)
  }

  /** The pass from `s` ends in an error: a decode step fails, or the prefill of its wave does. */
  ghost predicate PassFails(env: Env, prepared: seq<PreparedInputs>, s: Sched) {
    && s.cache.pool.blockSize > 0
    && var (ok, t) := DecodePart(env, s);
    !ok || (Queued(env, t) && |prepared| == |env.lens| && Wave(env, t) > 0 && !WaveReady(env, prepared, t))
  }

  /** Nobody runs and the head of the queue can never be admitted. */
  ghost predicate Exhausted(env: Env, s: Sched) {
    && Queued(env, s)
    && s.waiting != [] && Wave(env, s) == 0
    && forall i :: 0 <= i < |s.running| ==> s.running[i].None?
  }

  /** How a run over these segments ends in the schedule `s`. */
  ghost predicate EndsIn(env: Env, prepared: seq<PreparedInputs>, s: Sched, r: RunResult) {
    match r
    case Done(outputs) => AllDone(s) && outputs == s.outputs
    case Failed(_) => PassFails(env, prepared, s) || Exhausted(env, s)
    case Stalled => Livelock(env, s) && StepsBelow(env, s)
  }

  lemma IdlePass(env: Env, s: Sched)
    requires s.cache.pool.blockSize > 0 && forall i :: 0 <= i < |s.running| ==> s.running[i].None?
    ensures DecodePart(env, s) == (true, s)
  {
    FreeFinishedAt(s, |s.running|);
    NobodyActive(s.running, |s.running|);
    NoActiveGroups(env, s);
    assert MarkSpent(s.running, env.maxNew) == s.running;
  }

  lemma {:induction false} NobodyActive(running: seq<Option<RunningSlot>>, k: nat)
    requires k <= |running| && forall i :: 0 <= i < |running| ==> running[i].None?
    ensures Active(running, k) == []
  {
    if k > 0 {
      NobodyActive(running, k - 1);
    }
  }

  class AsrBatchScheduler {
    const maxNumSeqs: nat
    var nextRequestId: nat

    constructor (maxNumSeqs: nat)
      ensures this.maxNumSeqs == maxNumSeqs && nextRequestId == 0
    {
      this.maxNumSeqs, nextRequestId := maxNumSeqs, 0;
    }

    /** Admit the next wave, if there is one. */
    method Admit(env: Env, job: Job, rt: PagedCacheRuntime, waiting: seq<nat>, running: Places,
                 outputs: array<seq<Token>>, ghost s: Sched)
      returns (r: Outcome<seq<nat>>)
      requires rt.Valid() && rt.cache.numBlocks == env.numBlocks && JobFor(env, job)
      requires WellFormed(env, s) && Queued(env, s) && View(rt, waiting, running, outputs, nextRequestId) == s
      modifies this, rt.manager, rt.cache, running
      ensures rt.Valid()
      ensures r.Ok? <==> Wave(env, s) == 0 || WaveReady(env, job.prepared, s)
      ensures r.Ok? ==> if Wave(env, s) == 0 then View(rt, r.value, running, outputs, nextRequestId) == s
                        else Admits(env, s, Wave(env, s), View(rt, r.value, running, outputs, nextRequestId))
      ensures r.Ok? ==> (|r.value| < |waiting| <==> Wave(env, s) > 0)
    {
      hide AudioOffset, CountAudio, CleanRow, Prefilled, WaveReady, PlaceAll, FreePlaces, Wave, WaveState,
           BlockPool.Valid;
      var rest, clients, places := ChooseWave(env, rt, job.prepared, waiting, running, s);
      if clients == [] {
        return Ok(waiting);
      }
      QueueHead(env, s, |clients|);
      FreePlacesIndexed(s);
      var requestIdBase := nextRequestId;
      nextRequestId := nextRequestId + |clients|;
      var state :=
        PrefillWave(env, rt, job.audioId, job.padId, job.prepared, job.audio, job.offsets, job.audioLens, job.packed,
                    clients, requestIdBase, s);
      if state.Err? {
        return Err(state.error);
      }
      PlaceWave(running, clients, places, state.value, env, s, rt.View());
      WaveStatePrefilled(env, s, |clients|, state.value, rt.View());
      r := Ok(rest);
    }

    /** One iteration of the loop. */
    method RunPass(env: Env, job: Job, rt: PagedCacheRuntime, waiting: seq<nat>, running: Places,
                   outputs: array<seq<Token>>, ghost s: Sched)
      returns (r: Outcome<(seq<nat>, bool)>)
      requires rt.Valid() && rt.cache.numBlocks == env.numBlocks && JobFor(env, job)
      requires WellFormed(env, s) && Queued(env, s) && View(rt, waiting, running, outputs, nextRequestId) == s
      modifies this, rt.manager, rt.cache, running, outputs
      ensures rt.Valid()
      ensures r.Err? <==> PassFails(env, job.prepared, s)
      ensures r.Ok? ==> Pass(env, s, View(rt, r.value.0, running, outputs, nextRequestId))
      ensures r.Ok? ==> (|r.value.0| < |waiting| <==> Wave(env, DecodePart(env, s).1) > 0)
      ensures r.Ok? ==> (r.value.1 <==> StepGroups(FreeFinished(s, |s.running|)) != [])
    {
      hide JobFor, WellFormed, DecodePart, Admits, WaveReady, Wave, StepGroups, FreeFinished;
      var active := DecodeRunning(env, rt, running, outputs, waiting, nextRequestId);
      if active.Err? {
        return Err(active.error);
      }
      PassWellFormed(env, s);
      QueueStays(env, s, DecodePart(env, s).1);
      JobSize(env, job);
      var rest := Admit(env, job, rt, waiting, running, outputs, DecodePart(env, s).1);
      if rest.Err? {
        return Err(rest.error);
      }
      r := Ok((rest.value, active.value));
    }

    /** One iteration with its exits: how the run ends in the schedule `next`, or `next` to go on from. */
    method RunOnce(env: Env, job: Job, rt: PagedCacheRuntime, waiting: seq<nat>, running: Places,
                   outputs: array<seq<Token>>, ghost s: Sched)
      returns (r: Option<RunResult>, rest: seq<nat>, ghost next: Sched)
      requires rt.Valid() && rt.cache.numBlocks == env.numBlocks && JobFor(env, job) && env.maxNew > 0
      requires Between(env, s) && View(rt, waiting, running, outputs, nextRequestId) == s
      modifies this, rt.manager, rt.cache, running, outputs
      ensures rt.Valid()
      ensures next == s || Pass(env, s, next)
      ensures r.Some? ==>
                EndsIn(env, job.prepared, next, r.value) && (r.value.Done? ==> rt.View() == next.cache && env.eos != [])
      ensures r.None? ==> Between(env, next) && View(rt, rest, running, outputs, nextRequestId) == next
      ensures r.None? ==> Measure(next.waiting, next.running, env.maxNew) < Measure(s.waiting, s.running, env.maxNew)
    {
      hide JobFor, WellFormed, Pass, PassFails, Queued, StepsBelow, Livelock, BlockPool.Valid, Starved, Wave,
           StepGroups, FreeFinished;
      var before := running[..];
      var pass := RunPass(env, job, rt, waiting, running, outputs, s);
      if pass.Err? {
        FreeAllRunning(rt, running);
        return Some(Failed(pass.error)), waiting, s;
      }
      rest, next := pass.value.0, View(rt, pass.value.0, running, outputs, nextRequestId);
      var hasRunning := AnyRunning(running);
      if env.eos == [] {
        NoEndTokens(env, job, s, next);
      }
      if rest == [] && !hasRunning {
        FreeAllRunning(rt, running);
        return Some(Done(outputs[..])), rest, next;
      }
      if |rest| == |waiting| && !pass.value.1 && !hasRunning {
        NobodyAdmitted(env, s, next);
        FreeAllRunning(rt, running);
        return Some(Failed("paged KV cache exhausted")), rest, next;
      }
      NextBetween(env, s, next);
      if rest == waiting && running[..] == before {
        StuckIsLivelock(env, s);
        return Some(Stalled), rest, next;
      }
      r := None;
    }

    /** The loop: pass after pass until all clients are done, a pass fails, or nothing can ever change. */
    method RunLoop(env: Env, job: Job, rt: PagedCacheRuntime, running: Places, outputs: array<seq<Token>>,
                   clients: seq<nat>, ghost s0: Sched)
      returns (r: RunResult, ghost trace: seq<Sched>)
      requires rt.Valid() && rt.cache.numBlocks == env.numBlocks && JobFor(env, job) && env.maxNew > 0
      requires Between(env, s0) && View(rt, clients, running, outputs, nextRequestId) == s0
      modifies this, rt.manager, rt.cache, running, outputs
      ensures rt.Valid()
      ensures trace != [] && trace[0] == s0 && BatchRuns.Run(env, trace)
      ensures EndsIn(env, job.prepared, trace[|trace| - 1], r)
      ensures r.Done? ==> rt.View() == trace[|trace| - 1].cache && env.eos != []
    {
      hide JobFor, Between, Pass, Measure, EndsIn, BatchRuns.Run, BlockPool.Valid;
      var waiting := clients;
      ghost var s := s0;
      trace := [s0];
      RunStarts(env, s0);
      while true
        invariant rt.Valid() && Between(env, s) && View(rt, waiting, running, outputs, nextRequestId) == s
        invariant trace != [] && trace[0] == s0 && trace[|trace| - 1] == s && BatchRuns.Run(env, trace)
        decreases Measure(s.waiting, s.running, env.maxNew)
      {
        var end, rest;
        ghost var next;
        end, rest, next := RunOnce(env, job, rt, waiting, running, outputs, s);
        if next != s {
          RunExtends(env, trace, next);
          trace := trace + [next];
        }
        if end.Some? {
          return end.value, trace;
        }
        waiting, s := rest, next;
      }
    }

    /** Transcribe all segments with continuous batching. Whatever the admission order, the composition
        of the waves, the grouping by step and the reuse of blocks, a run that ends without having taken
        the losing branch returns the tokens of decoding each segment alone; and in a roomy pool that
        nobody else uses it always ends so. */
    method RunContinuousPrepared(net: Network, rt: PagedCacheRuntime, audioId: Token, padId: Token,
                                 prepared: seq<PreparedInputs>, audio: seq<AudioRow>,
                                 maxNew: nat, eos: seq<Token>, packed: bool)
      returns (r: RunResult, ghost trace: seq<Sched>)
      requires rt.Valid() && padId != audioId && forall i :: 0 <= i < |prepared| ==> CleanRow(prepared[i], audioId)
      modifies this, rt.manager, rt.cache
      ensures rt.Valid()
      ensures prepared == [] || maxNew == 0 ==> r == Done(seq(|prepared|, _ => [])) && rt.View() == old(rt.View())
      ensures prepared != [] && maxNew > 0 && AudioOffset(ClientRows(prepared), audioId, |prepared|) != |audio| ==>
                r.Failed? && rt.View() == old(rt.View())
      ensures prepared != [] && maxNew > 0 && AudioOffset(ClientRows(prepared), audioId, |prepared|) == |audio| ==>
                var env := EnvOf(net, eos, maxNew, prepared, audioId, audio, rt.cache.numBlocks, maxNumSeqs);
                && RunsTo(env, prepared, old(rt.View()), old(nextRequestId), trace, r)
                && (r.Done? ==> rt.View() == trace[|trace| - 1].cache && eos != [])
    {
      hide CleanRow, AudioOffset, CountAudio, ClientRows, RunsTo, EnvFor, Prompts;
      trace := [];
      if prepared == [] {
        return Done([]), trace;
      }
      if maxNew == 0 {
        return Done(seq(|prepared|, _ => [])), trace;
      }
      var layout := AudioLayout(prepared, audioId, audio);
      if layout.Err? {
        return Failed(layout.error), trace;
      }
      var env := EnvOf(net, eos, maxNew, prepared, audioId, audio, rt.cache.numBlocks, maxNumSeqs);
      var job := Job(prepared, audioId, padId, audio, layout.value.0, layout.value.1, packed);
      var running := new Option<RunningSlot>[env.maxSlots](_ => None);
      var outputs := new seq<Token>[|prepared|](_ => []);
      var waiting: seq<nat> := seq(|prepared|, i requires 0 <= i => i);
      ghost var s0 := Start(env, rt.View(), nextRequestId);
      assert running[..] == s0.running && outputs[..] == s0.outputs;
      StartBetween(env, rt.View(), nextRequestId);
      EnvOfFits(net, eos, maxNew, prepared, audioId, audio, rt.cache.numBlocks, maxNumSeqs);
      r, trace := RunLoop(env, job, rt, running, outputs, waiting, s0);
      RunEnds(env, prepared, rt.View(), s0, trace, r);
    }
  }

  /** The environment of a run: as many places as clients at most, and at least one. */
  function EnvOf(net: Network, eos: seq<Token>, maxNew: nat, prepared: seq<PreparedInputs>, audioId: Token,
                 audio: seq<AudioRow>, numBlocks: nat, maxNumSeqs: nat): (env: Env)
    requires AudioOffset(ClientRows(prepared), audioId, |prepared|) <= |audio|
    ensures env.numBlocks == numBlocks && env.maxNew == maxNew && |env.prompts| == |prepared|
    ensures env.maxSlots == Min(Max(maxNumSeqs, 1), |prepared|)
  {
    Env(net, eos, maxNew, PromptLensOf(prepared), Prompts(ClientRows(prepared), audioId, audio), numBlocks,
        Min(Max(maxNumSeqs, 1), |prepared|))
  }

  /** The run starts with everybody waiting, goes from pass to pass, and ends with this result. */
  ghost predicate RunsTo(env: Env, prepared: seq<PreparedInputs>, c: Cache, base: nat, trace: seq<Sched>, r: RunResult)
  {
    && trace != [] && trace[0] == Start(env, c, base) && BatchRuns.Run(env, trace)
    && EndsIn(env, prepared, trace[|trace| - 1], r)
  }

  lemma EnvOfFits(net: Network, eos: seq<Token>, maxNew: nat, prepared: seq<PreparedInputs>, audioId: Token,
                  audio: seq<AudioRow>, numBlocks: nat, maxNumSeqs: nat)
    requires AudioOffset(ClientRows(prepared), audioId, |prepared|) == |audio|
    ensures EnvFor(EnvOf(net, eos, maxNew, prepared, audioId, audio, numBlocks, maxNumSeqs), prepared, audioId, audio)
  {
  }

  lemma StartBetween(env: Env, c: Cache, base: nat)
    requires ValidCache(c, env.numBlocks) && |env.lens| == |env.prompts| > 0
    ensures Between(env, Start(env, c, base))
  {
    StartHealthy(env, c, base);
  }

  lemma RunEnds(env: Env, prepared: seq<PreparedInputs>, c: Cache, s0: Sched, trace: seq<Sched>, r: RunResult)
    requires trace != [] && trace[0] == s0 == Start(env, s0.cache, s0.nextId) && BatchRuns.Run(env, trace)
    requires EndsIn(env, prepared, trace[|trace| - 1], r)
    ensures RunsTo(env, prepared, s0.cache, s0.nextId, trace, r)
  {
  }

  // ----- what the result of a run means

  /** Continuous batching refines unbatched greedy decoding. */
  lemma ContinuousIsGreedy(env: Env, prepared: seq<PreparedInputs>, c: Cache, base: nat, trace: seq<Sched>,
                           r: RunResult, client: nat)
    requires ValidCache(c, env.numBlocks) && |env.lens| == |env.prompts| && env.eos != []
    requires RunsTo(env, prepared, c, base, trace, r) && r.Done? && NoBumps(env, trace[..|trace| - 1])
    requires client < |env.prompts|
    ensures |r.outputs| == |env.prompts|
    ensures r.outputs[client] == Greedy(env.net, env.eos, env.prompts[client], env.maxNew)
  {
    StartHealthy(env, c, base);
    RunsAreGreedy(env, trace, client);
  }

  lemma {:induction false} EveryStateAccounted(env: Env, c: Cache, base: nat, trace: seq<Sched>, i: nat)
    requires ValidCache(c, env.numBlocks) && |env.lens| == |env.prompts|
    requires i < |trace| && trace[0] == Start(env, c, base) && BatchRuns.Run(env, trace)
    ensures WellFormed(env, trace[i]) && Accounted(c.pool, base, trace[i])
  {
    hide WellFormed, Accounted, Pass;
    if i == 0 {
      StartAccounted(env, c, base);
    } else {
      EveryStateAccounted(env, c, base, trace, i - 1);
      assert PassAt(env, trace, i);
      PassKeepsForm(env, trace[i - 1], trace[i]);
      PassAccounted(env, c.pool, base, trace[i - 1], trace[i]);
    }
  }

  lemma StartAccounted(env: Env, c: Cache, base: nat)
    requires ValidCache(c, env.numBlocks) && |env.lens| == |env.prompts|
    ensures WellFormed(env, Start(env, c, base)) && Accounted(c.pool, base, Start(env, c, base))
  {
    StartHealthy(env, c, base);
  }

  /** Whatever happened on the way, a run that is done has returned every block it took. */
  lemma ContinuousReturnsBlocks(env: Env, prepared: seq<PreparedInputs>, c: Cache, base: nat, trace: seq<Sched>,
                                r: RunResult)
    requires ValidCache(c, env.numBlocks) && |env.lens| == |env.prompts|
    requires RunsTo(env, prepared, c, base, trace, r) && r.Done?
    requires forall id: nat :: base <= id ==> Table(c.pool, id) == []
    ensures var last := trace[|trace| - 1].cache.pool;
            && (forall id: nat :: Table(last, id) == Table(c.pool, id))
            && Elements(last.free) == Elements(c.pool.free) && |last.free| == |c.pool.free|
  {
    var last := trace[|trace| - 1];
    EveryStateAccounted(env, c, base, trace, |trace| - 1);
    RunReturnsBlocks(env, c.pool, base, last);
  }

  /** In a roomy pool used by nobody else every run is done, and without the losing branch. */
  lemma RoomyRunsFinish(env: Env, prepared: seq<PreparedInputs>, c: Cache, base: nat, limit: nat, trace: seq<Sched>,
                        r: RunResult)
    requires ValidCache(c, env.numBlocks) && Unowned(c.pool) && Roomy(env, c.pool.blockSize, limit)
    requires |prepared| == |env.lens| && env.lens == PromptLensOf(prepared)
    requires forall i :: 0 <= i < |prepared| ==> PromptLen(prepared[i]) <= |prepared[i].inputIds|
    requires RunsTo(env, prepared, c, base, trace, r)
    ensures r.Done? && NoBumps(env, trace)
  {
    hide Roomy, Served, PassRefuses, PassBumps, BatchRuns.Run, Start, EndsIn, ValidCache, DecodePart;
    forall i | 0 <= i < |trace|
      ensures !PassBumps(env, trace[i])
    {
      RoomyRuns(env, c, base, limit, trace, i);
      if PassBumps(env, trace[i]) {
        PassBumpsRefuses(env, trace[i]);
      }
    }
    var last := trace[|trace| - 1];
    RoomyRuns(env, c, base, limit, trace, |trace| - 1);
    RoomyEnd(env, prepared, c.pool, base, limit, last, r);
  }

  lemma RoomyEnd(env: Env, prepared: seq<PreparedInputs>, entry: Pool, base: nat, limit: nat, s: Sched, r: RunResult)
    requires Served(env, entry, base, limit, s) && EndsIn(env, prepared, s, r)
    requires |prepared| == |env.lens| && env.lens == PromptLensOf(prepared)
    requires forall i :: 0 <= i < |prepared| ==> PromptLen(prepared[i]) <= |prepared[i].inputIds|
    ensures r.Done?
  {
    if r.Stalled? {
      LivelockIsNotRoomy(env, entry, base, limit, s);
      assert false;
    } else if r.Failed? {
      if PassFails(env, prepared, s) {
        RoomyPassWorks(env, prepared, entry, base, limit, s);
      } else {
        HeadAdmitted(env, entry, base, limit, s);
      }
      assert false;
    }
  }

  lemma LivelockIsNotRoomy(env: Env, entry: Pool, base: nat, limit: nat, s: Sched)
    requires Served(env, entry, base, limit, s)
    ensures !Livelock(env, s)
  {
    if Livelock(env, s) {
      NobodyStarves(env, entry, base, limit, s);
    }
  }

  lemma RoomyPassWorks(env: Env, prepared: seq<PreparedInputs>, entry: Pool, base: nat, limit: nat, s: Sched)
    requires Served(env, entry, base, limit, s)
    requires |prepared| == |env.lens| && env.lens == PromptLensOf(prepared)
    requires forall i :: 0 <= i < |prepared| ==> PromptLen(prepared[i]) <= |prepared[i].inputIds|
    ensures !PassFails(env, prepared, s)
  {
    assert s.cache.pool.blockSize > 0;
    hide Served, DecodePart, PassRefuses, WaveReady;
    DecodeServed(env, entry, base, limit, s);
    var t := DecodePart(env, s).1;
    if Queued(env, t) && Wave(env, t) > 0 {
      RoomyWave(env, prepared, entry, base, limit, t);
    }
  }

  lemma RoomyWave(env: Env, prepared: seq<PreparedInputs>, entry: Pool, base: nat, limit: nat, s: Sched)
    requires Served(env, entry, base, limit, s) && Queued(env, s) && Wave(env, s) > 0
    requires |prepared| == |env.lens| && env.lens == PromptLensOf(prepared)
    requires forall i :: 0 <= i < |prepared| ==> PromptLen(prepared[i]) <= |prepared[i].inputIds|
    ensures WaveReady(env, prepared, s)
  {
    hide Served, PromptsFit, Wave, PromptLen;
    WavePrefillable(env, entry, base, limit, s);
    WaveRowsFit(prepared, Admitted(env, s), Wave(env, s));
    assert WaveLens(env, s, Wave(env, s))[0] > 0;
  }

  lemma WaveRowsFit(prepared: seq<PreparedInputs>, first: nat, w: nat)
    requires 0 < w <= first + w <= |prepared|
    requires forall i :: 0 <= i < |prepared| ==> PromptLen(prepared[i]) <= |prepared[i].inputIds|
    ensures PromptLensOf(prepared)[first..first + w][0] > 0 ==> WaveRowsOk(prepared[first..first + w])
  {
    hide PromptLen;
    var rows := prepared[first..first + w];
    assert rows[0] == prepared[first];
  }

  /** What holds between passes. */
  ghost predicate Between(env: Env, s: Sched) {
    && WellFormed(env, s) && Queued(env, s) && StepsBelow(env, s)
    && (env.eos == [] ==> s.waiting != [] && forall i :: 0 <= i < |s.running| ==> s.running[i].None?)
  }

  lemma NextBetween(env: Env, s: Sched, s': Sched)
    requires Between(env, s) && Pass(env, s, s') && env.eos != [] && env.maxNew > 0
    ensures Between(env, s')
    ensures s' == s <==> Starved(s) && Wave(env, s) == 0
    ensures s' != s ==> Measure(s'.waiting, s'.running, env.maxNew) < Measure(s.waiting, s.running, env.maxNew)
  {
    PassKeepsForm(env, s, s');
    StillQueued(env, s');
    hide WellFormed, Pass, Starved, Wave, StepsBelow;
    PassMeasure(env, s, s');
  }

  lemma JobSize(env: Env, job: Job)
    requires JobFor(env, job)
    ensures |job.prepared| == |env.lens| == |env.prompts|
  {
  }

  lemma QueueStays(env: Env, s: Sched, t: Sched)
    requires Queued(env, s) && t.waiting == s.waiting && t.cache.pool.blockSize == s.cache.pool.blockSize
    ensures Queued(env, t)
  {
  }

  lemma QueueHead(env: Env, s: Sched, w: nat)
    requires WellFormed(env, s) && Queued(env, s) && w <= |s.waiting|
    ensures forall k :: 0 <= k < w ==> s.waiting[..w][k] == Admitted(env, s) + k
  {
  }

  lemma WaveStatePrefilled(env: Env, s: Sched, w: nat, state: PagedBatchState, c: Cache)
    requires Queued(env, s) && w <= |s.waiting| && WaveState(env, s, w, state, c)
    ensures Prefilled(env.net, env.numBlocks, s.cache, c, RequestIds(s.nextId, w), WaveLens(env, s, w),
                      WavePrompts(env, s, w), FirstTokens(env.net, WavePrompts(env, s, w)), env.eos)
  {
  }

  lemma RunStarts(env: Env, s: Sched)
    ensures BatchRuns.Run(env, [s])
  {
  }

  lemma RunExtends(env: Env, trace: seq<Sched>, next: Sched)
    requires trace != [] && BatchRuns.Run(env, trace) && Pass(env, trace[|trace| - 1], next)
    ensures BatchRuns.Run(env, trace + [next])
  {
    hide Pass;
    forall i | 0 < i <= |trace|
      ensures PassAt(env, trace + [next], i)
    {
      if i < |trace| {
        assert PassAt(env, trace, i);
      }
    }
  }

  lemma NobodyAdmitted(env: Env, s: Sched, s': Sched)
    requires Pass(env, s, s') && Wave(env, DecodePart(env, s).1) == 0 && s'.waiting != []
    requires forall i :: 0 <= i < |s'.running| ==> s'.running[i].None?
    ensures Exhausted(env, s')
  {
  }

  lemma StillQueued(env: Env, s: Sched)
    requires WellFormed(env, s)
    ensures Queued(env, s)
  {
  }

  lemma StuckIsLivelock(env: Env, s: Sched)
    requires Queued(env, s) && Starved(s) && Wave(env, s) == 0
    requires StepGroups(FreeFinished(s, |s.running|)) != [] || exists i :: 0 <= i < |s.running| && s.running[i].Some?
    ensures Livelock(env, s)
  {
    if forall i :: 0 <= i < |s.running| ==> s.running[i].None? {
      FreeFinishedAt(s, |s.running|);
      NobodyActive(s.running, |s.running|);
      NoActiveGroups(env, s);
      assert false;
    }
  }

  /** Without end tokens the first admission fails, so the run ends in its first pass. */
  lemma NoEndTokens(env: Env, job: Job, s: Sched, s': Sched)
    requires Pass(env, s, s') && !PassFails(env, job.prepared, s) && JobFor(env, job) && env.eos == []
    requires forall i :: 0 <= i < |s.running| ==> s.running[i].None?
    ensures s' == s && Wave(env, DecodePart(env, s).1) == 0 && StepGroups(FreeFinished(s, |s.running|)) == []
  {
    IdlePass(env, s);
    JobSize(env, job);
    FreeFinishedAt(s, |s.running|);
    NobodyActive(s.running, |s.running|);
    NoActiveGroups(env, s);
  }
}
