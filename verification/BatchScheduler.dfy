/** The continuous scheduler as it runs: one long loop over a queue, an array of places and the shared
    cache. Every iteration is a pass of the specification. */
module BatchScheduler {
  import opened Prelude
  import opened Decoding
  import opened BlockPool
  import opened SlotMapping
  import opened PagedKvCache
  import opened PagedCacheRuntime
  import opened DecodeStep
  import opened PagedBatchEngine
  import opened PrefillInput
  import opened PagedBatchPrefill
  import opened ContinuousBatch
  import opened CapacityBounds
  import opened DecodePass
  import opened SchedulerPass
  import opened Admission
  import opened WaveInput

  type Places = array<Option<RunningSlot>>

  ghost function View(rt: PagedCacheRuntime, waiting: seq<nat>, running: Places, outputs: array<seq<Token>>,
                      nextId: nat): Sched
    reads rt.manager, rt.cache, running, outputs
  {
    Sched(rt.View(), waiting, running[..], outputs[..], nextId)
  }

  /** Store the output of every ended sequence, free its blocks and its place. */
  method FreeFinishedRunning(rt: PagedCacheRuntime, running: Places, outputs: array<seq<Token>>, ghost env: Env,
                             ghost waiting: seq<nat>, ghost nextId: nat)
    requires rt.Valid() && rt.cache.numBlocks == env.numBlocks
    requires WellFormed(env, View(rt, waiting, running, outputs, nextId))
    modifies rt.manager, running, outputs
    ensures rt.Valid()
    ensures View(rt, waiting, running, outputs, nextId) ==
              FreeFinished(old(View(rt, waiting, running, outputs, nextId)), running.Length)
  {
    ghost var s := View(rt, waiting, running, outputs, nextId);
    assert s.running == running[..];
    for i := 0 to running.Length
      invariant rt.cache.kv == s.cache.kv
      invariant View(rt, waiting, running, outputs, nextId) == FreeFinished(s, i)
    {
      FreeFinishedKeeps(env, s, i);
      if running[i].Some? && running[i].value.slot.finished {
        var entry := running[i].value;
        outputs[entry.clientIndex] := entry.slot.generated;
        rt.manager.FreeMany([entry.slot.requestId]);
        running[i] := None;
      }
    }
    FreeFinishedKeeps(env, s, running.Length);
  }

  /** The unfinished slots with their steps. */
  method ActiveSteps(running: Places) returns (active: seq<(nat, nat)>)
    ensures active == Active(running[..], running.Length)
  {
    active := [];
    for i := 0 to running.Length
      invariant active == Active(running[..], i)
    {
      if running[i].Some? && !running[i].value.slot.finished {
        active := active + [(i, running[i].value.slot.decodeStep)];
      }
    }
  }

  method TakeBatch(running: Places, idxs: seq<nat>) returns (slots: array<DecodeSlot>)
    requires Indexes(idxs, running.Length) && forall k :: 0 <= k < |idxs| ==> running[idxs[k]].Some?
    ensures fresh(slots) && slots[..] == BatchOf(running[..], idxs)
  {
    slots := new DecodeSlot[|idxs|](k requires 0 <= k < |idxs| && Indexes(idxs, running.Length) &&
                                    running[idxs[k]].Some? reads running => running[idxs[k]].value.slot);
  }

  method PutBatchBack(running: Places, idxs: seq<nat>, slots: array<DecodeSlot>)
    requires Indexes(idxs, running.Length) && slots.Length == |idxs|
    modifies running
    ensures running[..] == PutBack(old(running[..]), idxs, slots[..], |idxs|)
  {
    ghost var before, after := running[..], slots[..];
    for k := 0 to |idxs|
      invariant slots[..] == after
      invariant running[..] == PutBack(before, idxs, after, k)
    {
      if running[idxs[k]].Some? {
        running[idxs[k]] := Some(running[idxs[k]].value.(slot := slots[k]));
      }
    }
  }

  /** One group: a clone of its slots through the decode step and back. */
  method DecodeGroup(env: Env, rt: PagedCacheRuntime, running: Places, step: nat, idxs: seq<nat>, ghost s: Sched)
    returns (r: Outcome<()>)
    requires rt.Valid() && rt.cache.numBlocks == env.numBlocks
    requires rt.View() == s.cache && running[..] == s.running && GroupOf(s.running, step, idxs)
    modifies rt.manager, rt.cache, running
    ensures rt.Valid()
    ensures r.Ok? <==> GroupStep(env, s, step, idxs).0
    ensures r.Ok? ==>
              rt.View() == GroupStep(env, s, step, idxs).1.cache &&
                running[..] == GroupStep(env, s, step, idxs).1.running
  {
    var slots := TakeBatch(running, idxs);
    r := DecodeSlotsAtStep(env.net, rt, slots, step, env.maxNew, env.eos);
    if r.Ok? {
      PutBatchBack(running, idxs, slots);
    }
  }

  /** All groups in order; the first error ends the pass. */
  method DecodeGroups(env: Env, rt: PagedCacheRuntime, running: Places, groups: Groups, ghost s: Sched)
    returns (r: Outcome<()>)
    requires rt.Valid() && rt.cache.numBlocks == env.numBlocks
    requires rt.View() == s.cache && running[..] == s.running && Grouping(s.running, groups)
    modifies rt.manager, rt.cache, running
    ensures rt.Valid()
    ensures r.Ok? <==> RunGroups(env, s, groups, |groups|).0
    ensures r.Ok? ==>
              rt.View() == RunGroups(env, s, groups, |groups|).1.cache &&
                running[..] == RunGroups(env, s, groups, |groups|).1.running
  {
    hide GroupStep, GroupOf, Grouping;
    for g := 0 to |groups|
      invariant rt.Valid()
      invariant RunGroups(env, s, groups, g).0
      invariant rt.View() == RunGroups(env, s, groups, g).1.cache
      invariant running[..] == RunGroups(env, s, groups, g).1.running
    {
      StillGroup(env, s, groups, g, g);
      r := DecodeGroup(env, rt, running, groups[g].0, groups[g].1, RunGroups(env, s, groups, g).1);
      if r.Err? {
        ErrorStays(env, s, groups, g + 1, |groups|);
        return;
      }
    }
    r := Ok(());
  }

  lemma {:induction false} ErrorStays(env: Env, s: Sched, groups: Groups, g: nat, k: nat)
    requires s.cache.pool.blockSize > 0 && g <= k <= |groups| && !RunGroups(env, s, groups, g).0
    ensures !RunGroups(env, s, groups, k).0
    decreases k
  {
    hide RunGroups;
    if g < k {
      ErrorStays(env, s, groups, g, k - 1);
      NextError(env, s, groups, k);
    }
  }

  lemma NextError(env: Env, s: Sched, groups: Groups, k: nat)
    requires s.cache.pool.blockSize > 0 && 0 < k <= |groups| && !RunGroups(env, s, groups, k - 1).0
    ensures !RunGroups(env, s, groups, k).0
  {
    hide GroupStep;
  }

  method FinishSpent(running: Places, maxNew: nat)
    modifies running
    ensures running[..] == MarkSpent(old(running[..]), maxNew)
  {
    ghost var before := running[..];
    for i := 0 to running.Length
      invariant running[..i] == MarkSpent(before, maxNew)[..i]
      invariant running[i..] == before[i..]
    {
      assert running[i] == running[i..][0] == before[i];
      if running[i].Some? && !running[i].value.slot.finished && running[i].value.slot.decodeStep >= maxNew {
        running[i] := Some(running[i].value.(slot := running[i].value.slot.(finished := true)));
      }
    }
  }

  /** The pass up to admission; tells whether any sequence was active. */
  method DecodeRunning(env: Env, rt: PagedCacheRuntime, running: Places, outputs: array<seq<Token>>,
                       ghost waiting: seq<nat>, ghost nextId: nat)
    returns (r: Outcome<bool>)
    requires rt.Valid() && rt.cache.numBlocks == env.numBlocks
    requires WellFormed(env, View(rt, waiting, running, outputs, nextId))
    modifies rt.manager, rt.cache, running, outputs
    ensures rt.Valid()
    ensures r.Ok? <==> DecodePart(env, old(View(rt, waiting, running, outputs, nextId))).0
    ensures r.Ok? ==>
              View(rt, waiting, running, outputs, nextId) ==
                DecodePart(env, old(View(rt, waiting, running, outputs, nextId))).1
    ensures r.Ok? ==>
              (r.value <==> StepGroups(FreeFinished(old(View(rt, waiting, running, outputs, nextId)),
                                                    running.Length)) != [])
  {
    hide WellFormed, RunGroups, FreeFinished, GroupedByStep, Grouping, MarkSpent, Active, GroupsOf;
    ghost var s := View(rt, waiting, running, outputs, nextId);
    FreeFinishedRunning(rt, running, outputs, env, waiting, nextId);
    ghost var s1 := View(rt, waiting, running, outputs, nextId);
    FreeFinishedKeeps(env, s, running.Length);
    var active := ActiveSteps(running);
    if active != [] {
      var groups := GroupRunningByDecodeStep(active);
      StepGroupsGroup(s1);
      assert groups == StepGroups(s1);
      NonEmptyGroups(active);
      var done := DecodeGroups(env, rt, running, groups, s1);
      if done.Err? {
        return Err(done.error);
      }
    } else {
      NoActiveGroups(env, s1);
    }
    ghost var s2 := View(rt, waiting, running, outputs, nextId);
    assert (true, s2) == RunGroups(env, s1, StepGroups(s1), |StepGroups(s1)|);
    GroupsWellFormed(env, s1, StepGroups(s1), |StepGroups(s1)|);
    MarkSpentKeeps(env, s2);
    FinishSpent(running, env.maxNew);
    FreeFinishedRunning(rt, running, outputs, env, waiting, nextId);
    r := Ok(active != []);
  }

  lemma NonEmptyGroups(active: seq<(nat, nat)>)
    requires active != []
    ensures GroupsOf(active) != []
  {
    GroupsAreGrouped(active);
    assert exists g :: 0 <= g < |GroupsOf(active)| && GroupsOf(active)[g].0 == active[0].1;
  }

  lemma NoActiveGroups(env: Env, s: Sched)
    requires Active(s.running, |s.running|) == [] && s.cache.pool.blockSize > 0
    ensures StepGroups(s) == [] && RunGroups(env, s, StepGroups(s), |StepGroups(s)|) == (true, s)
  {
    assert Steps([]) == {};
  }

  // ----- admission

  /** Blocks held by the running sequences, and how many run. */
  method RunningKvBlocks(rt: PagedCacheRuntime, running: Places) returns (used: nat, count: nat)
    ensures used == Held(rt.manager.View(), RunningIds(running[..])) && count == |RunningIds(running[..])|
  {
    used, count := 0, 0;
    for i := 0 to running.Length
      invariant running[..i] == running[..][..i]
      invariant used == Held(rt.manager.View(), RunningIds(running[..i])) && count == |RunningIds(running[..i])|
    {
      RunningIdsStep(running[..], i);
      if running[i].Some? {
        var blocks := rt.manager.BlocksForRequest(running[i].value.slot.requestId);
        HeldStep(rt.manager.View(), RunningIds(running[..i]), running[i].value.slot.requestId);
        used := used + blocks;
        count := count + 1;
      }
    }
    assert running[..running.Length] == running[..];
  }

  lemma RunningIdsStep(running: seq<Option<RunningSlot>>, i: nat)
    requires i < |running|
    ensures RunningIds(running[..i + 1]) ==
              if running[i].Some? then RunningIds(running[..i]) + [running[i].value.slot.requestId]
                else RunningIds(running[..i])
  {
    assert running[..i + 1][..i] == running[..i];
  }

  lemma HeldStep(p: Pool, ids: seq<nat>, id: nat)
    ensures Held(p, ids + [id]) == Held(p, ids) + |Table(p, id)|
  {
    assert (ids + [id])[..|ids|] == ids;
  }

  method CanAdmitWithProjectedKv(rt: PagedCacheRuntime, capacity: nat, promptLen: nat, projectedUsed: nat,
                                 projectedRunning: nat)
    returns (ok: bool)
    requires rt.manager.blockSize > 0
    ensures ok <==> projectedUsed + DivCeil(promptLen, rt.manager.blockSize) + Max(projectedRunning, 1) <= capacity
  {
    var promptBlocks := DivCeil(promptLen, rt.manager.blockSize);
    var decodeHeadroom := Max(projectedRunning, 1);
    ok := projectedUsed + promptBlocks + decodeHeadroom <= capacity;
  }

  /** Take clients from the queue for the empty places, in order, while they fit. */
  method FillPlaces(prepared: seq<PreparedInputs>, waiting: seq<nat>, running: Places, rt: PagedCacheRuntime, used: nat,
                    count: nat, capacity: nat, ghost lens: seq<nat>)
    returns (rest: seq<nat>, clients: seq<nat>, places: seq<nat>)
    requires rt.manager.blockSize > 0 && |lens| == |waiting|
    requires forall i :: 0 <= i < |waiting| ==> waiting[i] < |prepared| && PromptLen(prepared[waiting[i]]) == lens[i]
    requires |FreePlaces(running[..], running.Length)| + count == running.Length
    ensures var w := WaveFrom(lens, rt.manager.blockSize, used, count, |FreePlaces(running[..], running.Length)|,
                              capacity, 0);
            clients == waiting[..w] && rest == waiting[w..] && places == FreePlaces(running[..], running.Length)[..w]
  {
    hide WaveFrom, BlocksOf, DivCeil;
    ghost var bs, all := rt.manager.blockSize, FreePlaces(running[..], running.Length);
    NoBlocks(lens, bs);
    var projectedUsed, projectedRunning := used, count;
    rest, clients, places := waiting, [], [];
    for slotIdx := 0 to running.Length
      invariant Filling(waiting, rest, clients, all, places) && places == FreePlaces(running[..], slotIdx)
      invariant projectedRunning == count + |clients| && projectedUsed == used + BlocksOf(lens, bs, |clients|)
      invariant WaveFrom(lens, bs, used, count, |all|, capacity, 0) ==
                  WaveFrom(lens, bs, used, count, |all|, capacity, |clients|)
    {
      FreePlacesPrefix(running[..], slotIdx + 1, running.Length);
      WaveUnfolds(lens, bs, used, count, |all|, capacity, |clients|);
      if running[slotIdx].None? {
        if projectedRunning >= running.Length || rest == [] {
          return;
        }
        var promptLen := PromptLen(prepared[rest[0]]);
        var ok := CanAdmitWithProjectedKv(rt, capacity, promptLen, projectedUsed, projectedRunning + 1);
        if !ok {
          return;
        }
        projectedUsed := projectedUsed + DivCeil(promptLen, rt.manager.blockSize);
        projectedRunning := projectedRunning + 1;
        clients := clients + [rest[0]];
        rest := rest[1..];
        places := places + [slotIdx];
      }
    }
  }

  lemma NoBlocks(lens: seq<nat>, bs: nat)
    requires bs > 0
    ensures BlocksOf(lens, bs, 0) == 0
  {
  }

  lemma WaveUnfolds(lens: seq<nat>, bs: nat, used: nat, count: nat, places: nat, capacity: nat, k: nat)
    requires bs > 0 && k <= places && k <= |lens|
    ensures WaveFrom(lens, bs, used, count, places, capacity, k)
         == if k < places && k < |lens| &&
           used + BlocksOf(lens, bs, k) + DivCeil(lens[k], bs) + Max(count + k + 1, 1) <= capacity
            then WaveFrom(lens, bs, used, count, places, capacity, k + 1) else k
    ensures k < |lens| ==> BlocksOf(lens, bs, k + 1) == BlocksOf(lens, bs, k) + DivCeil(lens[k], bs)
  {
    hide DivCeil;
  }

  /** The queue and the empty places taken so far. */
  ghost predicate Filling(waiting: seq<nat>, rest: seq<nat>, clients: seq<nat>, all: seq<nat>, places: seq<nat>) {
    && |clients| <= |waiting| && clients == waiting[..|clients|] && rest == waiting[|clients|..]
    && |places| == |clients| <= |all| && places == all[..|clients|]
  }

  method ChooseWave(env: Env, rt: PagedCacheRuntime, prepared: seq<PreparedInputs>, waiting: seq<nat>, running: Places,
                    ghost s: Sched)
    returns (rest: seq<nat>, clients: seq<nat>, places: seq<nat>)
    requires rt.Valid() && rt.cache.numBlocks == env.numBlocks && env.lens == PromptLensOf(prepared)
    requires rt.View() == s.cache && running[..] == s.running && waiting == s.waiting && WellFormed(env, s)
    requires Queued(env, s)
    ensures var w := Wave(env, s);
            && clients == waiting[..w] && rest == waiting[w..]
            && w <= |FreePlaces(s.running, |s.running|)| && places == FreePlaces(s.running, |s.running|)[..w]
  {
    hide Held, RunningIds, BlockPool.Valid, WaveFrom, FreePlaces;
    var used, count := RunningKvBlocks(rt, running);
    OccupiedAndFree(running[..]);
    rest, clients, places :=
      FillPlaces(prepared, waiting, running, rt, used, count, Capacity(rt.cache.numBlocks),
                 env.lens[Admitted(env, s)..]);
  }

  lemma OccupiedAndFree(running: seq<Option<RunningSlot>>)
    ensures |FreePlaces(running, |running|)| + |RunningIds(running)| == |running|
  {
    FreePlacesAre(running, |running|);
    assert running[..|running|] == running;
  }

  lemma {:induction false} FreePlacesPrefix(running: seq<Option<RunningSlot>>, k: nat, n: nat)
    requires k <= n <= |running|
    ensures |FreePlaces(running, k)| <= |FreePlaces(running, n)|
    ensures FreePlaces(running, n)[..|FreePlaces(running, k)|] == FreePlaces(running, k)
    decreases n
  {
    if k < n {
      FreePlacesPrefix(running, k, n - 1);
    }
  }

  /** The environment of a run over these segments. */
  ghost predicate EnvFor(env: Env, prepared: seq<PreparedInputs>, audioId: Token, audio: seq<AudioRow>) {
    && env.lens == PromptLensOf(prepared)
    && AudioOffset(ClientRows(prepared), audioId, |prepared|) == |audio|
    && env.prompts == Prompts(ClientRows(prepared), audioId, audio)
  }

  /** The prefill of the next wave will succeed. */
  ghost predicate WaveReady(env: Env, prepared: seq<PreparedInputs>, s: Sched)
    requires Queued(env, s) && |prepared| == |env.lens|
  {
    var w := Wave(env, s);
    && WaveRowsOk(prepared[Admitted(env, s)..Admitted(env, s) + w])
    && env.eos != []
    && (forall i :: 0 <= i < w ==> WaveLens(env, s, w)[i] > 0)
    && PromptsFit(s.cache.pool, RequestIds(s.nextId, w), WaveLens(env, s, w), w)
  }

  method WaveRows(prepared: seq<PreparedInputs>, clients: seq<nat>) returns (rows: seq<PreparedInputs>)
    requires forall k :: 0 <= k < |clients| ==> clients[k] < |prepared|
    ensures |rows| == |clients| && forall k :: 0 <= k < |clients| ==> rows[k] == prepared[clients[k]]
  {
    rows := seq(|clients|, k requires 0 <= k < |clients| && clients[k] < |prepared| => prepared[clients[k]]);
  }

  /** Pad the wave, concatenate its audio, prefill. */
  method PrefillWave(env: Env, rt: PagedCacheRuntime, audioId: Token, padId: Token, prepared: seq<PreparedInputs>,
                     audio: seq<AudioRow>,
                     offsets: seq<nat>, audioLens: seq<nat>, packed: bool, clients: seq<nat>, base: nat, ghost s: Sched)
    returns (r: Outcome<PagedBatchState>)
    requires rt.Valid() && rt.cache.numBlocks == env.numBlocks && rt.View() == s.cache && base == s.nextId
    requires EnvFor(env, prepared, audioId, audio) && padId != audioId
    requires forall i :: 0 <= i < |prepared| ==> CleanRow(prepared[i], audioId)
    requires |offsets| == |audioLens| == |prepared|
    requires forall c ::
              0 <= c < |prepared| ==>
                offsets[c] == AudioOffset(ClientRows(prepared), audioId, c) &&
                  audioLens[c] == CountAudio(ClientRows(prepared)[c], audioId)
    requires Queued(env, s) && |clients| == Wave(env, s) > 0
    requires forall k :: 0 <= k < |clients| ==> clients[k] == Admitted(env, s) + k
    modifies rt.manager, rt.cache
    ensures rt.Valid()
    ensures r.Ok? <==> WaveReady(env, prepared, s)
    ensures r.Ok? ==> fresh(r.value) && WaveState(env, s, |clients|, r.value, rt.View())
  {
    hide CleanRow, AudioOffset, CountAudio, Prompts, WaveBatch, Prefilled, PromptsFit, WaveRowsOk, WaveAudio,
         BatchPrompts, CleanBatch, VisibleRows, ClientRows, BlockPool.Valid, Wave;
    ghost var w, first := |clients|, Admitted(env, s);
    var rows := WaveRows(prepared, clients);
    assert rows == prepared[first..first + w];
    var padded := PadPreparedWaveForPrefill(rows, padId);
    if padded.Err? {
      return Err(padded.error);
    }
    var (ids, masks) := padded.value;
    WaveBatchMeans(prepared, first, w, |ids[0]|, padId, audioId, ids, masks);
    WaveBatchPrompts(prepared, first, w, |ids[0]|, padId, audioId, audio, ids, masks);
    var waveAudio :=
      ConcatPreparedAudio(audio, offsets, audioLens, clients[0], |clients|, ClientRows(prepared), audioId);
    WaveSizes(rows, |ids[0]|, padId, ids, masks);
    PositiveLens(masks);
    assert MaskLens(masks) == WaveLens(env, s, w);
    r := Prefill(env.net, rt, audioId, ids, masks, waveAudio.value, base, env.maxNew, env.eos, packed);
    if r.Ok? {
      FirstTokensAre(env.net, env.numBlocks, s.cache, rt.View(), r.value.requestIds, r.value.promptLens,
                     WavePrompts(env, s, w), r.value.nextIds, env.eos);
    }
  }

  lemma WaveSizes(rows: seq<PreparedInputs>, len: nat, padId: Token, ids: seq<seq<Token>>, masks: seq<seq<nat>>)
    requires WaveBatch(rows, len, padId, ids, masks)
    ensures |ids| == |masks| == |rows|
  {
  }

  lemma FirstTokensAre(net: Network, numBlocks: nat, c: Cache, c': Cache, ids: seq<nat>, lens: seq<nat>,
                       prompts: seq<seq<Item>>, next: seq<Token>, eos: seq<Token>)
    requires 0 < c.pool.blockSize && |ids| == |lens| == |next|
    requires Prefilled(net, numBlocks, c, c', ids, lens, prompts, next, eos)
    ensures next == FirstTokens(net, prompts)
  {
  }

  /** The state the prefill of a wave returns, in terms of its clients. */
  ghost predicate WaveState(env: Env, s: Sched, w: nat, state: PagedBatchState, c: Cache)
    requires Queued(env, s) && w <= |s.waiting|
    reads state
  {
    && state.Valid()
    && state.requestIds == RequestIds(s.nextId, w)
    && state.promptLens == WaveLens(env, s, w)
    && state.nextIds == FirstTokens(env.net, WavePrompts(env, s, w))
    && state.finished == Ended(state.nextIds, env.eos)
    && Prefilled(env.net, env.numBlocks, s.cache, c, state.requestIds, state.promptLens, WavePrompts(env, s, w),
                 state.nextIds, env.eos)
  }

  /** One decode slot per row of the prefill's state, into the places chosen for them. */
  method PlaceWave(running: Places, clients: seq<nat>, places: seq<nat>, state: PagedBatchState, ghost env: Env,
                   ghost s: Sched, ghost c: Cache)
    requires Queued(env, s) && |clients| <= |s.waiting| && WaveState(env, s, |clients|, state, c)
    requires forall k :: 0 <= k < |clients| ==> clients[k] == Admitted(env, s) + k
    requires running[..] == s.running && |clients| <= |FreePlaces(s.running, |s.running|)|
    requires places == FreePlaces(s.running, |s.running|)[..|clients|]
    requires PlacesIndexed(s)
    modifies running
    ensures running[..] == PlaceAll(s.running, FreePlaces(s.running, |s.running|),
                                    Entries(Admitted(env, s), s.nextId, WaveLens(env, s, |clients|),
                                            FirstTokens(env.net, WavePrompts(env, s, |clients|)), env.eos), |clients|)
  {
    hide Prefilled, FreePlaces, NextToken;
    ghost var entries :=
      Entries(Admitted(env, s), s.nextId, WaveLens(env, s, |clients|),
              FirstTokens(env.net, WavePrompts(env, s, |clients|)), env.eos);
    for k := 0 to |clients|
      invariant running[..] == PlaceAll(s.running, FreePlaces(s.running, |s.running|), entries, k)
    {
      assert places[k] == FreePlaces(s.running, |s.running|)[k];
      var slot := DecodeSlot(state.requestIds[k], state.promptLens[k], state.nextIds[k], [], state.finished[k], 0);
      running[places[k]] := Some(RunningSlot(clients[k], slot));
    }
  }

  lemma FreePlacesIndexed(s: Sched)
    ensures PlacesIndexed(s)
  {
    PlacesEmpty(s.running);
  }

  method FreeAllRunning(rt: PagedCacheRuntime, running: Places)
    requires rt.Valid()
    modifies rt.manager, running
    ensures rt.Valid() && forall i :: 0 <= i < running.Length ==> running[i].None?
    ensures old(forall i :: 0 <= i < running.Length ==> running[i].None?) ==>
              rt.View() == old(rt.View()) && running[..] == old(running[..])
  {
    ghost var before := running[..];
    for i := 0 to running.Length
      invariant rt.Valid() && running[i..] == before[i..]
      invariant (forall k :: 0 <= k < running.Length ==> before[k].None?) ==>
                rt.View() == old(rt.View()) && running[..] == before
      invariant forall k :: 0 <= k < i ==> running[k].None?
    {
      assert running[i] == running[i..][0] == before[i];
      if running[i].Some? {
        ReleaseAllValid(rt.manager.View(), [running[i].value.slot.requestId], 1, rt.cache.numBlocks);
        rt.manager.FreeMany([running[i].value.slot.requestId]);
        running[i] := None;
      }
    }
  }

  method AnyRunning(running: Places) returns (any: bool)
    ensures any <==> exists i :: 0 <= i < running.Length && running[i].Some?
  {
    for i := 0 to running.Length
      invariant forall k :: 0 <= k < i ==> running[k].None?
    {
      if running[i].Some? {
        return true;
      }
    }
    any := false;
  }

  lemma ClientAudio(prepared: seq<PreparedInputs>, audioId: Token, c: nat)
    requires c < |prepared| && CleanRow(prepared[c], audioId)
    ensures CountAudio(prepared[c].inputIds, audioId) == CountAudio(ClientRows(prepared)[c], audioId)
    ensures AudioOffset(ClientRows(prepared), audioId, c + 1) ==
              AudioOffset(ClientRows(prepared), audioId, c) + CountAudio(prepared[c].inputIds, audioId)
  {
    hide CountAudio;
    CleanCount(prepared[c], audioId);
  }

  /** Starts and lengths of the audio of the first `c` clients. */
  ghost predicate LaidOut(rows: seq<seq<Token>>, audioId: Token, offsets: seq<nat>, lens: seq<nat>, c: nat) {
    && |offsets| == |lens| == c <= |rows|
    && forall k :: 0 <= k < c ==> offsets[k] == AudioOffset(rows, audioId, k) && lens[k] == CountAudio(rows[k], audioId)
  }

  lemma NothingLaidOut(rows: seq<seq<Token>>, audioId: Token)
    ensures AudioOffset(rows, audioId, 0) == 0 && LaidOut(rows, audioId, [], [], 0)
  {
  }

  lemma LaidOutMore(rows: seq<seq<Token>>, audioId: Token, offsets: seq<nat>, lens: seq<nat>, c: nat)
    requires LaidOut(rows, audioId, offsets, lens, c) && c < |rows|
    ensures LaidOut(rows, audioId, offsets + [AudioOffset(rows, audioId, c)], lens + [CountAudio(rows[c], audioId)],
                    c + 1)
  {
    hide AudioOffset, CountAudio;
  }

  lemma LaidOutAll(rows: seq<seq<Token>>, audioId: Token, offsets: seq<nat>, lens: seq<nat>)
    requires LaidOut(rows, audioId, offsets, lens, |rows|)
    ensures |offsets| == |lens| == |rows|
    ensures forall c ::
              0 <= c < |rows| ==> offsets[c] == AudioOffset(rows, audioId, c) && lens[c] == CountAudio(rows[c], audioId)
  {
    hide AudioOffset, CountAudio;
  }

  /** Where each client's audio starts, and how much it has; an error unless all of it is claimed. */
  method AudioLayout(prepared: seq<PreparedInputs>, audioId: Token, audio: seq<AudioRow>)
    returns (r: Outcome<(seq<nat>, seq<nat>)>)
    requires forall i :: 0 <= i < |prepared| ==> CleanRow(prepared[i], audioId)
    ensures r.Ok? <==> AudioOffset(ClientRows(prepared), audioId, |prepared|) == |audio|
    ensures r.Ok? ==> |r.value.0| == |r.value.1| == |prepared| && forall c :: 0 <= c < |prepared| ==>
              r.value.0[c] == AudioOffset(ClientRows(prepared), audioId, c) &&
                r.value.1[c] == CountAudio(ClientRows(prepared)[c], audioId)
  {
    hide CountAudio, CleanRow, ClientTokens, AudioOffset, LaidOut;
    NothingLaidOut(ClientRows(prepared), audioId);
    var lens: seq<nat>, offsets: seq<nat>, cursor := [], [], 0;
    for c := 0 to |prepared|
      invariant cursor == AudioOffset(ClientRows(prepared), audioId, c)
      invariant LaidOut(ClientRows(prepared), audioId, offsets, lens, c)
    {
      ClientAudio(prepared, audioId, c);
      LaidOutMore(ClientRows(prepared), audioId, offsets, lens, c);
      var len := CountAudio(prepared[c].inputIds, audioId);
      lens := lens + [len];
      offsets := offsets + [cursor];
      cursor := cursor + len;
    }
    LaidOutAll(ClientRows(prepared), audioId, offsets, lens);
    if cursor != |audio| {
      return Err("continuous batch audio token mismatch");
    }
    r := Ok((offsets, lens));
  }
}
