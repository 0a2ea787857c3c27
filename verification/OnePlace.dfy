/** One sequence at a time: with a single place the losing branch cannot be taken, and whether the pool has
    room decides, for every queue of clients, how a run ends. */
module OnePlace {
  import opened Prelude
  import opened Decoding
  import opened BlockPool
  import opened SlotMapping
  import opened PagedKvCache
  import opened PagedCacheRuntime
  import opened DecodeStep
  import opened DecodeSoundness
  import opened PrefillInput
  import opened PagedBatchPrefill
  import opened ContinuousBatch
  import opened CapacityBounds
  import opened SchedulerPass
  import opened PassProgress
  import opened Admission
  import opened BatchRuns
  import opened BlockAccounts
  import opened CapacityRuns
  import opened ServedRuns
  import opened WaveInput
  import opened BatchScheduler
  import opened ContinuousScheduler
  import opened RoomNeeded

  /** A group of one cannot have one slot end while another is refused. */
  lemma OneNeverBumps(c: Cache, slots: seq<DecodeSlot>, step: nat, maxNew: nat, eos: seq<Token>)
    requires c.pool.blockSize > 0 && |slots| <= 1
    ensures !Bumps(c, slots, step, maxNew, eos)
  {
    var decodable := Decodable(c, slots, step).1;
    assert decodable != [] ==> decodable[0] in decodable && decodable[0] < |slots|;
  }

  lemma OneInGroup(running: seq<Option<RunningSlot>>, step: nat, idxs: seq<nat>)
    requires GroupOf(running, step, idxs) && |running| <= 1
    ensures |idxs| <= 1
  {
    NoDupSetSize(idxs);
    assert Elements(idxs) <= {0};
    SubsetCount(Elements(idxs), {0});
  }

  lemma OnePlaceNeverBumps(env: Env, s: Sched)
    requires |s.running| <= 1
    ensures !PassBumps(env, s)
  {
    if PassBumps(env, s) {
      hide Bumps, RunGroups, GroupOf, StepGroups;
      var s1 := FreeFinished(s, |s.running|);
      var g :| 0 <= g < |StepGroups(s1)| && BumpsAt(env, s1, StepGroups(s1), g);
      var t, group := RunGroups(env, s1, StepGroups(s1), g).1, StepGroups(s1)[g];
      OneInGroup(t.running, group.0, group.1);
      OneNeverBumps(t.cache, BatchOf(t.running, group.1), group.0, env.maxNew, env.eos);
      assert false;
    }
  }

  /** A run with a single place, in a pool nobody else uses. */
  ghost predicate Alone(env: Env, prepared: seq<PreparedInputs>, c: Cache) {
    && ValidCache(c, env.numBlocks) && Unowned(c.pool)
    && env.eos != [] && env.maxNew > 0 && env.maxSlots == 1
    && LensMatch(env) && env.lens == PromptLensOf(prepared)
    && (forall i :: 0 <= i < |prepared| ==> 0 < PromptLen(prepared[i]) <= |prepared[i].inputIds|)
  }

  /** Between passes of such a run. */
  ghost predicate Serving(env: Env, c: Cache, base: nat, s: Sched) {
    && c.pool.blockSize > 0 && s.cache.pool.blockSize == c.pool.blockSize
    && Healthy(env, s) && StepsBelow(env, s)
    && Room(env, c.pool.blockSize, s)
    && Accounted(c.pool, base, s)
  }

  lemma PassServing(env: Env, prepared: seq<PreparedInputs>, c: Cache, base: nat, s: Sched, s': Sched)
    requires Alone(env, prepared, c) && Serving(env, c, base, s) && Pass(env, s, s')
    ensures Serving(env, c, base, s')
  {
    OnePlaceNeverBumps(env, s);
    hide Pass, Room, Accounted, PassBumps, StepsBelow, LensMatch, Truthful, Unowned;
    PassRoom(env, s, s');
    PassKeepsHealth(env, s, s');
    PassAccounted(env, c.pool, base, s, s');
    hide WellFormed;
    PassMeasure(env, s, s');
  }

  lemma {:induction false} EveryStateServing(env: Env, prepared: seq<PreparedInputs>, c: Cache, base: nat,
                                             trace: seq<Sched>, i: nat)
    requires Alone(env, prepared, c) && i < |trace| && trace[0] == Start(env, c, base) && BatchRuns.Run(env, trace)
    ensures Serving(env, c, base, trace[i])
  {
    hide Alone, Serving, Pass, Start;
    if i == 0 {
      StartServing(env, prepared, c, base);
    } else {
      EveryStateServing(env, prepared, c, base, trace, i - 1);
      assert PassAt(env, trace, i);
      PassServing(env, prepared, c, base, trace[i - 1], trace[i]);
    }
  }

  lemma StartServing(env: Env, prepared: seq<PreparedInputs>, c: Cache, base: nat)
    requires Alone(env, prepared, c)
    ensures Serving(env, c, base, Start(env, c, base))
  {
    StartHealthy(env, c, base);
    StartRoom(env, c, base);
    StartAccounted(env, c, base);
  }

  // ----- how a run can end

  /** Nothing running and nobody admitted: the head of the queue is not admissible. */
  lemma ExhaustedHead(env: Env, prepared: seq<PreparedInputs>, c: Cache, base: nat, s: Sched)
    requires Alone(env, prepared, c) && Serving(env, c, base, s) && Exhausted(env, s)
    ensures !Admissible(env, c.pool.blockSize, Admitted(env, s))
  {
    var lens := env.lens[Admitted(env, s)..];
    NobodyRuns(s.running);
    assert s.running[..|s.running|] == s.running;
    FreePlacesAre(s.running, |s.running|);
    assert lens[0] == env.lens[Admitted(env, s)];
    assert Admissible(env, c.pool.blockSize, Admitted(env, s)) <==>
      MayAdmit(lens, s.cache.pool.blockSize, 0, 0, Capacity(env.numBlocks), 0);
  }

  /** No pass of such a run fails. */
  lemma PassesWork(env: Env, prepared: seq<PreparedInputs>, c: Cache, base: nat, s: Sched)
    requires Alone(env, prepared, c) && Serving(env, c, base, s)
    ensures !PassFails(env, prepared, s)
  {
    OnePlaceNeverBumps(env, s);
    PassHealthy(env, s);
    DecodeAccounted(env, c.pool, base, s);
    var t := DecodePart(env, s).1;
    hide DecodePart, PassBumps, Wave, Truthful, Accounted, WaveReady, Room;
    if Queued(env, t) && Wave(env, t) > 0 {
      WaveWorks(env, prepared, c, base, t);
    }
  }

  lemma WaveWorks(env: Env, prepared: seq<PreparedInputs>, c: Cache, base: nat, t: Sched)
    requires Alone(env, prepared, c) && WellFormed(env, t) && Accounted(c.pool, base, t) && Queued(env, t)
    requires Wave(env, t) > 0
    ensures WaveReady(env, prepared, t)
  {
    hide WellFormed, Accounted, PromptsFit, Wave, PromptLen, GrowPrompts, ValidCache, Unowned, LensMatch, RunningIds;
    AdmittedWaveFits(env, c.pool, base, t);
    forall i | 0 <= i < |WaveLens(env, t, Wave(env, t))|
      ensures WaveLens(env, t, Wave(env, t))[i] > 0
    {
      assert WaveLens(env, t, Wave(env, t))[i] == PromptLen(prepared[Admitted(env, t) + i]);
    }
    WaveRowsFit(prepared, Admitted(env, t), Wave(env, t));
  }

  /** A prefix of the greedy path within the budget is a prefix of the output. */
  lemma {:induction false} PrefixOfGreedy(net: Network, eos: seq<Token>, prompt: seq<Item>, budget: nat, g: seq<Token>)
    requires GreedyPrefix(net, eos, prompt, g) && |g| <= budget
    ensures g <= Greedy(net, eos, prompt, budget)
    decreases budget
  {
    hide GreedyPrefix, NextToken;
    if g != [] {
      var t, tail := g[0], g[1..];
      assert g == [t] + tail;
      FirstIsGreedy(net, eos, prompt, g);
      GreedyPrefixShift(net, eos, prompt, t, tail);
      PrefixOfGreedy(net, eos, prompt + [Embedding(t)], budget - 1, tail);
    }
  }

  lemma FirstIsGreedy(net: Network, eos: seq<Token>, prompt: seq<Item>, g: seq<Token>)
    requires GreedyPrefix(net, eos, prompt, g) && g != []
    ensures g[0] == NextToken(net, prompt) && g[0] !in eos
  {
    hide NextToken;
    assert g[..0] == [] && prompt + Embed([]) == prompt;
  }

  /** The only sequence of the pool is starved only when its own decoding needs more than the pool has. */
  lemma StarvedNeedsMore(env: Env, prepared: seq<PreparedInputs>, c: Cache, base: nat, s: Sched)
    requires Alone(env, prepared, c) && Serving(env, c, base, s) && Starved(s) && |s.running| == 1 && s.running[0].Some?
    ensures var client := s.running[0].value.clientIndex;
            client < |env.prompts| && Admissible(env, c.pool.blockSize, client) &&
              !PeakFits(env, c.pool.blockSize, client)
  {
    var entry := s.running[0].value;
    var g, out := entry.slot.generated, Output(env, entry.clientIndex);
    PrefixOfGreedy(env.net, env.eos, env.prompts[entry.clientIndex], env.maxNew, g);
    assert TokensAfter(entry.slot) <= PeakTokens(env, entry.clientIndex);
    WholePool(env, c, base, s);
    hide PeakTokens, Output, Truthful, Sound;
    DivCeilMonotone(TokensAfter(entry.slot), PeakTokens(env, entry.clientIndex), c.pool.blockSize);
  }

  /** The only sequence of the pool holds all that is not free. */
  lemma WholePool(env: Env, c: Cache, base: nat, s: Sched)
    requires WellFormed(env, s) && Accounted(c.pool, base, s) && Unowned(c.pool) && |s.running| == 1
    requires s.running[0].Some?
    ensures |s.cache.pool.free| + |Table(s.cache.pool, s.running[0].value.slot.requestId)| == Capacity(env.numBlocks)
  {
    HeldNow(env, c.pool, base, s);
    assert s.running[..0] == [] && RunningIds([]) == [];
    assert RunningIds(s.running) == [s.running[0].value.slot.requestId];
    HeldStep(s.cache.pool, [], s.running[0].value.slot.requestId);
    assert [] + [s.running[0].value.slot.requestId] == [s.running[0].value.slot.requestId];
  }

  /** The earlier clients could all be served, this one cannot. */
  ghost predicate FirstUnservable(env: Env, bs: nat, c: nat)
    requires bs > 0 && |env.lens| == |env.prompts|
  {
    c < |env.prompts| && !Servable(env, bs, c) && forall d :: 0 <= d < c ==> Servable(env, bs, d)
  }

  /** The clients before the running one, or before the head of the queue when nobody runs, are done. */
  lemma DoneBefore(env: Env, bs: nat, s: Sched, d: nat)
    requires WellFormed(env, s) && Room(env, bs, s) && |s.running| == 1
    requires d < Admitted(env, s) && (s.running[0].Some? ==> s.running[0].value.clientIndex != d)
    ensures Servable(env, bs, d)
  {
  }

  /** How a run of one sequence at a time ends: done exactly when the pool can serve every client alone. When it
      cannot, the first client it cannot serve decides: an error when it cannot even be admitted, and a loop
      without end when it is admitted but cannot be decoded to its end. */
  lemma OnePlaceOutcome(env: Env, prepared: seq<PreparedInputs>, c: Cache, base: nat, trace: seq<Sched>, r: RunResult)
    requires Alone(env, prepared, c) && RunsTo(env, prepared, c, base, trace, r)
    ensures r.Done? <==> forall client :: 0 <= client < |env.prompts| ==> Servable(env, c.pool.blockSize, client)
    ensures forall client: nat ::
              FirstUnservable(env, c.pool.blockSize, client) ==>
                (r.Stalled? <==> Admissible(env, c.pool.blockSize, client))
    ensures r.Done? ==> r.outputs == seq(|env.prompts|, i requires 0 <= i < |env.prompts| => Output(env, i))
  {
    var last, bs := trace[|trace| - 1], c.pool.blockSize;
    EveryStateServing(env, prepared, c, base, trace, |trace| - 1);
    hide BatchRuns.Run, Start, Servable, Room, Truthful, StepsBelow, Accounted, Pass, Unowned;
    EndOfOne(env, prepared, c, base, last, r);
  }

  lemma EndOfOne(env: Env, prepared: seq<PreparedInputs>, c: Cache, base: nat, s: Sched, r: RunResult)
    requires Alone(env, prepared, c) && Serving(env, c, base, s) && EndsIn(env, prepared, s, r)
    ensures r.Done? <==> forall client :: 0 <= client < |env.prompts| ==> Servable(env, c.pool.blockSize, client)
    ensures forall client: nat ::
              FirstUnservable(env, c.pool.blockSize, client) ==>
                (r.Stalled? <==> Admissible(env, c.pool.blockSize, client))
    ensures r.Done? ==> r.outputs == seq(|env.prompts|, i requires 0 <= i < |env.prompts| => Output(env, i))
  {
    var bs := c.pool.blockSize;
    hide PassFails, Servable, LensMatch, StepsBelow, Accounted, Unowned, Exhausted, Livelock, Admissible, Output;
    match r
    case Done(outputs) =>
      forall d: nat | d < |env.prompts|
        ensures Servable(env, bs, d) && outputs[d] == Output(env, d)
      {
        DoneServable(env, c, base, s, d);
      }
    case Failed(_) =>
      PassesWork(env, prepared, c, base, s);
      FailedAt(env, prepared, c, base, s);
    case Stalled =>
      StalledAt(env, prepared, c, base, s);
  }

  lemma DoneServable(env: Env, c: Cache, base: nat, s: Sched, d: nat)
    requires Serving(env, c, base, s) && AllDone(s) && d < |env.prompts|
    ensures |env.lens| == |env.prompts| == |s.outputs| && Servable(env, c.pool.blockSize, d)
    ensures s.outputs[d] == Output(env, d)
  {
    hide Servable, Sound, SlotRoom, Greedy;
    assert !IsRunning(s.running, d);
  }

  lemma FailedAt(env: Env, prepared: seq<PreparedInputs>, c: Cache, base: nat, s: Sched)
    requires Alone(env, prepared, c) && Serving(env, c, base, s) && Exhausted(env, s)
    ensures FirstUnservable(env, c.pool.blockSize, Admitted(env, s))
    ensures !Admissible(env, c.pool.blockSize, Admitted(env, s))
  {
    ExhaustedHead(env, prepared, c, base, s);
    hide PeakFits, Admissible, Truthful, Sound, SlotRoom, Accounted;
    forall d: nat | d < Admitted(env, s)
      ensures Servable(env, c.pool.blockSize, d)
    {
      DoneBefore(env, c.pool.blockSize, s, d);
    }
  }

  lemma StalledAt(env: Env, prepared: seq<PreparedInputs>, c: Cache, base: nat, s: Sched)
    requires Alone(env, prepared, c) && Serving(env, c, base, s) && Livelock(env, s)
    ensures |s.running| == 1 && s.running[0].Some?
    ensures var client := s.running[0].value.clientIndex;
            FirstUnservable(env, c.pool.blockSize, client) && Admissible(env, c.pool.blockSize, client)
  {
    SomebodyRuns(env, s);
    hide Livelock, Alone, PeakFits, Admissible, Truthful, Sound, Room, Accounted, Starved, WellFormed, StepsBelow;
    StarvedNeedsMore(env, prepared, c, base, s);
    OnlyOne(env, s);
    forall d: nat | d < s.running[0].value.clientIndex
      ensures Servable(env, c.pool.blockSize, d)
    {
      DoneBefore(env, c.pool.blockSize, s, d);
    }
  }

  lemma SomebodyRuns(env: Env, s: Sched)
    requires Livelock(env, s) && WellFormed(env, s) && env.maxSlots == 1
    ensures Starved(s) && |s.running| == 1 && s.running[0].Some?
  {
    hide Starved;
  }

  lemma OnlyOne(env: Env, s: Sched)
    requires WellFormed(env, s) && |s.running| == 1 && s.running[0].Some?
    ensures s.running[0].value.clientIndex < Admitted(env, s) <= |env.prompts| == |env.lens|
  {
  }

  // ----- a run that never ends

  /** A prompt of `n` ordinary tokens. */
  function PlainRow(n: nat): PreparedInputs {
    PreparedInputs(Padding(n, 1), Padding(n, 1), [])
  }

  lemma {:induction false} PlainAudio(prepared: seq<PreparedInputs>, lens: seq<nat>, audioId: Token, k: nat)
    requires |lens| == |prepared| && audioId != 1 && k <= |prepared|
    requires forall i :: 0 <= i < |prepared| ==> prepared[i] == PlainRow(lens[i])
    ensures AudioOffset(ClientRows(prepared), audioId, k) == 0
  {
    if k > 0 {
      PlainAudio(prepared, lens, audioId, k - 1);
      CountAudioNone(ClientRows(prepared)[k - 1], audioId);
    }
  }

  lemma PlainClean(n: nat, audioId: Token)
    requires audioId != 1
    ensures CleanRow(PlainRow(n), audioId) && PromptLen(PlainRow(n)) == |PlainRow(n).inputIds| == n
  {
    MaskLenFull(PlainRow(n).attentionMask);
  }

  /** A network that never ends a sequence. */
  ghost predicate NeverEnds(net: Network, eos: seq<Token>) {
    forall entries :: net.head(entries) !in eos
  }

  lemma {:induction false} UnendedOutput(net: Network, eos: seq<Token>, context: seq<Item>, budget: nat)
    requires NeverEnds(net, eos)
    ensures |Greedy(net, eos, context, budget)| == budget
    decreases budget
  {
    if budget > 0 {
      UnendedOutput(net, eos, context + [Embedding(NextToken(net, context))], budget - 1);
    }
  }

  /** That prompt, with a budget of twenty tokens, in a pool of three blocks. */
  ghost function PlainAlone(net: Network): Env {
    PlainAudio([PlainRow(8)], [8], 7, 1);
    EnvOf(net, [0], 20, [PlainRow(8)], 7, [], 3, 1)
  }

  /** A legal call the source never returns from: one prompt of eight tokens in a new pool of three blocks of
      eight. It is admitted, decodes until it fills both usable blocks, and then waits for a block that only it
      could give back. */
  method DecodesForEver(net: Network) returns (r: RunResult, ghost trace: seq<Sched>)
    requires NeverEnds(net, [0])
    ensures r.Stalled?
    ensures exists c: Cache :: c.pool == Fresh(3, 8) && RunsTo(PlainAlone(net), [PlainRow(8)], c, 0, trace, r)
  {
    var rt := new PagedCacheRuntime(net, 3, 8);
    var scheduler := new AsrBatchScheduler(1);
    var row := PlainRow(8);
    PlainClean(8, 7);
    PlainAudio([row], [8], 7, 1);
    ghost var c := rt.View();
    r, trace := scheduler.RunContinuousPrepared(net, rt, 7, 0, [row], [], 20, [0], false);
    EightStall(net, PlainAlone(net), c, trace, r);
  }

  lemma EightStall(net: Network, env: Env, c: Cache, trace: seq<Sched>, r: RunResult)
    requires env == PlainAlone(net) && NeverEnds(net, [0])
    requires ValidCache(c, 3) && c.pool == Fresh(3, 8)
    requires RunsTo(env, [PlainRow(8)], c, 0, trace, r)
    ensures r.Stalled?
  {
    PlainClean(8, 7);
    assert env.lens == [8] && |env.prompts[0]| == 8;
    hide RunsTo, AudioOffset, MaskLen;
    UnendedOutput(net, [0], env.prompts[0], 20);
    OnePlaceOutcome(env, [PlainRow(8)], c, 0, trace, r);
    assert DivCeil(28, 8) == 4;
    assert FirstUnservable(env, 8, 0);
  }
}
