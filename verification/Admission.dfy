/** Admission: which waiting clients a pass takes in, where they are put, and what their prefill
    leaves of the schedule. */
module Admission {
  import opened Prelude
  import opened Decoding
  import opened BlockPool
  import opened SlotMapping
  import opened PagedCacheRuntime
  import opened DecodeStep
  import opened DecodeSoundness
  import opened PrefillInput
  import opened PagedBatchPrefill
  import opened ContinuousBatch
  import opened CapacityBounds

  /** Empty places below `k`, in order. */
  function FreePlaces(running: seq<Option<RunningSlot>>, k: nat): seq<nat>
    requires k <= |running|
  {
    if k == 0 then [] else
      FreePlaces(running, k - 1) + (if running[k - 1].None? then [k - 1] else [])
  }

  lemma {:induction false} FreePlacesAre(running: seq<Option<RunningSlot>>, k: nat)
    requires k <= |running|
    ensures NoDup(FreePlaces(running, k))
    ensures forall i: nat :: i in FreePlaces(running, k) <==> i < k && running[i].None?
    ensures |FreePlaces(running, k)| + |RunningIds(running[..k])| == k
  {
    if k > 0 {
      FreePlacesAre(running, k - 1);
      assert running[..k][..k - 1] == running[..k - 1];
    }
  }

  lemma PlacesEmpty(running: seq<Option<RunningSlot>>)
    ensures NoDup(FreePlaces(running, |running|)) && Indexes(FreePlaces(running, |running|), |running|)
    ensures forall j :: 0 <= j < |FreePlaces(running, |running|)| ==> running[FreePlaces(running, |running|)[j]].None?
  {
    var places := FreePlaces(running, |running|);
    FreePlacesAre(running, |running|);
    forall j | 0 <= j < |places|
      ensures places[j] < |running| && running[places[j]].None?
    {
      assert places[j] in places;
    }
  }

  /** After `k` admissions there is room for the next prompt and one more block per running sequence. */
  predicate MayAdmit(lens: seq<nat>, bs: nat, used: nat, running: nat, capacity: nat, k: nat)
    requires bs > 0 && k < |lens|
  {
    used + BlocksOf(lens, bs, k) + DivCeil(lens[k], bs) + Max(running + k + 1, 1) <= capacity
  }

  /** How many waiting clients are admitted, the first `k` of them already. */
  function WaveFrom(lens: seq<nat>, bs: nat, used: nat, running: nat, places: nat, capacity: nat, k: nat): (w: nat)
    requires bs > 0 && k <= places && k <= |lens|
    ensures k <= w <= places && w <= |lens|
    decreases |lens| - k
  {
    if k < places && k < |lens| && MayAdmit(lens, bs, used, running, capacity, k)
    then WaveFrom(lens, bs, used, running, places, capacity, k + 1) else k
  }

  /** Admission stops at the first client that does not fit, and not before. */
  lemma {:induction false} WaveIsGreedy(lens: seq<nat>, bs: nat, used: nat, running: nat, places: nat, capacity: nat,
                                        k: nat)
    requires bs > 0 && k <= places && k <= |lens|
    ensures var w := WaveFrom(lens, bs, used, running, places, capacity, k);
            && (forall j :: k <= j < w ==> MayAdmit(lens, bs, used, running, capacity, j))
            && (w < places && w < |lens| ==> !MayAdmit(lens, bs, used, running, capacity, w))
    decreases |lens| - k
  {
    if k < places && k < |lens| && MayAdmit(lens, bs, used, running, capacity, k) {
      hide MayAdmit;
      WaveIsGreedy(lens, bs, used, running, places, capacity, k + 1);
    }
  }

  function Capacity(numBlocks: nat): nat {
    if numBlocks == 0 then 0 else numBlocks - 1
  }

  /** The schedule is shaped well enough to speak of its next wave. */
  predicate Queued(env: Env, s: Sched) {
    s.cache.pool.blockSize > 0 && |s.waiting| <= |env.prompts| == |env.lens|
  }

  function Wave(env: Env, s: Sched): (w: nat)
    requires Queued(env, s)
    ensures w <= |s.waiting|
  {
    WaveFrom(env.lens[Admitted(env, s)..], s.cache.pool.blockSize, Held(s.cache.pool, RunningIds(s.running)),
             |RunningIds(s.running)|,
             |FreePlaces(s.running, |s.running|)|, Capacity(env.numBlocks), 0)
  }

  function WaveLens(env: Env, s: Sched, w: nat): (lens: seq<nat>)
    requires Queued(env, s) && w <= |s.waiting|
    ensures |lens| == w
  {
    env.lens[Admitted(env, s)..Admitted(env, s) + w]
  }

  function WavePrompts(env: Env, s: Sched, w: nat): (prompts: seq<seq<Item>>)
    requires Queued(env, s) && w <= |s.waiting|
    ensures |prompts| == w
  {
    env.prompts[Admitted(env, s)..Admitted(env, s) + w]
  }

  function FirstTokens(net: Network, prompts: seq<seq<Item>>): (next: seq<Token>)
    ensures |next| == |prompts|
  {
    seq<Token>(|prompts|, k requires 0 <= k < |prompts| => NextToken(net, prompts[k]))
  }

  /** The admitted clients as they start: request ids counted on, nothing generated yet. */
  function Entries(first: nat, base: nat, lens: seq<nat>, next: seq<Token>,
                   eos: seq<Token>): (entries: seq<RunningSlot>)
    requires |lens| == |next|
    ensures |entries| == |lens|
  {
    seq(|lens|, k requires 0 <= k < |lens| =>
      RunningSlot(first + k, DecodeSlot(base + k, lens[k], next[k], [], next[k] in eos, 0)))
  }

  function PlaceAll(running: seq<Option<RunningSlot>>, places: seq<nat>, entries: seq<RunningSlot>,
                    k: nat): (r: seq<Option<RunningSlot>>)
    requires k <= |entries| <= |places| && Indexes(places, |running|)
    ensures |r| == |running|
  {
    if k == 0 then running else PlaceAll(running, places, entries, k - 1)[places[k - 1] := Some(entries[k - 1])]
  }

  lemma {:induction false} PlacedAt(running: seq<Option<RunningSlot>>, places: seq<nat>, entries: seq<RunningSlot>,
                                    k: nat)
    requires k <= |entries| <= |places| && Indexes(places, |running|) && NoDup(places)
    ensures forall j :: 0 <= j < k ==> PlaceAll(running, places, entries, k)[places[j]] == Some(entries[j])
    ensures forall i: nat ::
              i < |running| && i !in places[..k] ==> PlaceAll(running, places, entries, k)[i] == running[i]
  {
    if k > 0 {
      PlacedAt(running, places, entries, k - 1);
      assert places[..k] == places[..k - 1] + [places[k - 1]];
    }
  }

  /** A place after the wave: as before, or one of the newcomers where it was empty. */
  lemma PlacedCase(running: seq<Option<RunningSlot>>, entries: seq<RunningSlot>, i: nat) returns (j: nat)
    requires |entries| <= |FreePlaces(running, |running|)| && i < |running|
    ensures Indexes(FreePlaces(running, |running|), |running|)
    ensures var after := PlaceAll(running, FreePlaces(running, |running|), entries, |entries|)[i];
            j <= |entries| && if j < |entries| then running[i].None? && after == Some(entries[j]) &&
              FreePlaces(running, |running|)[j] == i else after == running[i]
  {
    var places := FreePlaces(running, |running|);
    PlacesEmpty(running);
    PlacedAt(running, places, entries, |entries|);
    j := |entries|;
    if i in places[..|entries|] {
      j :| 0 <= j < |entries| && places[..|entries|][j] == i;
    }
  }

  /** Each newcomer sits in its place. */
  lemma PlacedNew(running: seq<Option<RunningSlot>>, entries: seq<RunningSlot>, j: nat)
    requires j < |entries| <= |FreePlaces(running, |running|)|
    ensures Indexes(FreePlaces(running, |running|), |running|)
    ensures PlaceAll(running, FreePlaces(running, |running|), entries, |entries|)[FreePlaces(running, |running|)[j]] ==
              Some(entries[j])
  {
    PlacesEmpty(running);
    PlacedAt(running, FreePlaces(running, |running|), entries, |entries|);
  }

  ghost predicate PlacesIndexed(s: Sched) {
    Indexes(FreePlaces(s.running, |s.running|), |s.running|)
  }

  /** The wave's prefill succeeded: the newcomers run, everybody else is as before. */
  ghost predicate Admits(env: Env, s: Sched, w: nat, s': Sched) {
    && Queued(env, s)
    && PlacesIndexed(s)
    && w <= |s.waiting| && w <= |FreePlaces(s.running, |s.running|)|
    && var lens, prompts := WaveLens(env, s, w), WavePrompts(env, s, w);
       var next := FirstTokens(env.net, prompts);
    && Prefilled(env.net, env.numBlocks, s.cache, s'.cache, RequestIds(s.nextId, w), lens, prompts, next, env.eos)
    && s' == Sched(s'.cache, s.waiting[w..],
                   PlaceAll(s.running, FreePlaces(s.running, |s.running|),
                            Entries(Admitted(env, s), s.nextId, lens, next, env.eos), w),
                   s.outputs, s.nextId + w)
  }

  /** Places, clients and request ids stay distinct and in range. */
  ghost predicate PlacesDistinct(running: seq<Option<RunningSlot>>, clients: nat, ids: nat) {
    && (forall i :: 0 <= i < |running| && running[i].Some? ==>
        running[i].value.clientIndex < clients && running[i].value.slot.requestId < ids)
    && (forall i, j :: 0 <= i < j < |running| && running[i].Some? && running[j].Some? ==>
          && running[i].value.clientIndex != running[j].value.clientIndex
          && running[i].value.slot.requestId != running[j].value.slot.requestId)
  }

  lemma PlacedDistinct(running: seq<Option<RunningSlot>>, first: nat, base: nat, entries: seq<RunningSlot>)
    requires PlacesDistinct(running, first, base) && |entries| <= |FreePlaces(running, |running|)|
    requires Indexes(FreePlaces(running, |running|), |running|)
    requires forall k ::
              0 <= k < |entries| ==> entries[k].clientIndex == first + k && entries[k].slot.requestId == base + k
    ensures PlacesDistinct(PlaceAll(running, FreePlaces(running, |running|), entries, |entries|), first + |entries|,
                           base + |entries|)
  {
    hide PlaceAll, FreePlaces;
    var after := PlaceAll(running, FreePlaces(running, |running|), entries, |entries|);
    forall i | 0 <= i < |after| && after[i].Some?
      ensures after[i].value.clientIndex < first + |entries| && after[i].value.slot.requestId < base + |entries|
    {
      var k := PlacedCase(running, entries, i);
    }
    forall i, j | 0 <= i < j < |after| && after[i].Some? && after[j].Some?
      ensures after[i].value.clientIndex != after[j].value.clientIndex
      ensures after[i].value.slot.requestId != after[j].value.slot.requestId
    {
      var a := PlacedCase(running, entries, i);
      var b := PlacedCase(running, entries, j);
    }
  }

  lemma AdmitWellFormed(env: Env, s: Sched, w: nat, s': Sched)
    requires WellFormed(env, s) && Admits(env, s, w, s')
    ensures WellFormed(env, s')
  {
    var entries :=
      Entries(Admitted(env, s), s.nextId, WaveLens(env, s, w), FirstTokens(env.net, WavePrompts(env, s, w)), env.eos);
    PrefilledValid(env, s, w, s');
    hide Prefilled, PlaceAll, FreePlaces, BlockPool.Valid;
    PlacedDistinct(s.running, Admitted(env, s), s.nextId, entries);
  }

  lemma PrefilledValid(env: Env, s: Sched, w: nat, s': Sched)
    requires Admits(env, s, w, s')
    ensures ValidCache(s'.cache, env.numBlocks)
  {
  }

  /** A newcomer starts on its own greedy path. */
  lemma NewcomerSound(env: Env, s: Sched, w: nat, s': Sched, j: nat)
    requires Admits(env, s, w, s') && j < w
    requires 0 < s'.cache.pool.blockSize
    ensures var entry :=
              Entries(Admitted(env, s), s.nextId, WaveLens(env, s, w), FirstTokens(env.net, WavePrompts(env, s, w)),
                      env.eos)[j];
            Sound(env.net, env.eos, env.maxNew, s'.cache.pool, s'.cache.kv, env.prompts[entry.clientIndex], entry.slot)
  {
    hide PlaceAll, FreePlaces, TrimFinished, GrowPrompts, NextToken, Cached, BlockPool.Valid;
    var prompt := env.prompts[Admitted(env, s) + j];
    assert prompt == WavePrompts(env, s, w)[j];
    assert prompt + Embed([]) == prompt;
    assert RequestIds(s.nextId, w)[j] == s.nextId + j;
  }

  /** Everybody else keeps what is cached. */
  lemma ResidentSound(env: Env, s: Sched, w: nat, s': Sched, i: nat)
    requires WellFormed(env, s) && PlaceSound(env, s, i) && Admits(env, s, w, s')
    requires 0 < s'.cache.pool.blockSize
    ensures Sound(env.net, env.eos, env.maxNew, s'.cache.pool, s'.cache.kv, env.prompts[s.running[i].value.clientIndex],
                  s.running[i].value.slot)
  {
    hide PlaceAll, FreePlaces, TrimFinished, GrowPrompts, GreedyPrefix, GreedyComplete, NextToken;
    var slot := s.running[i].value.slot;
    RequestIdsRange(s.nextId, w);
    assert slot.requestId !in RequestIds(s.nextId, w);
    if !slot.finished {
      assert Cached(env.net, s.cache.pool, s.cache.kv, slot.requestId,
                    Context(env.prompts[s.running[i].value.clientIndex], slot));
    }
  }

  lemma AdmitHealthy(env: Env, s: Sched, w: nat, s': Sched)
    requires Healthy(env, s) && Admits(env, s, w, s')
    ensures Healthy(env, s')
  {
    AdmitWellFormed(env, s, w, s');
    var entries :=
      Entries(Admitted(env, s), s.nextId, WaveLens(env, s, w), FirstTokens(env.net, WavePrompts(env, s, w)), env.eos);
    hide Prefilled, PlaceAll, FreePlaces, Sound;
    forall i | 0 <= i < |s'.running| && s'.running[i].Some?
      ensures Sound(env.net, env.eos, env.maxNew, s'.cache.pool, s'.cache.kv,
                    env.prompts[s'.running[i].value.clientIndex], s'.running[i].value.slot)
    {
      var j := PlacedCase(s.running, entries, i);
      if j < w {
        NewcomerSound(env, s, w, s', j);
      } else {
        ResidentSound(env, s, w, s', i);
      }
    }
    forall c: nat | c < Admitted(env, s') && !IsRunning(s'.running, c)
      ensures s'.outputs[c] == Greedy(env.net, env.eos, env.prompts[c], env.maxNew)
    {
      if c >= Admitted(env, s) || IsRunning(s.running, c) {
        RunsAfter(env, s, w, s', c);
      }
    }
  }

  /** Who runs, keeps running through the wave, and every newcomer runs after it. */
  lemma RunsAfter(env: Env, s: Sched, w: nat, s': Sched, c: nat)
    requires Admits(env, s, w, s')
    requires IsRunning(s.running, c) || Admitted(env, s) <= c < Admitted(env, s) + w
    ensures IsRunning(s'.running, c)
  {
    var entries :=
      Entries(Admitted(env, s), s.nextId, WaveLens(env, s, w), FirstTokens(env.net, WavePrompts(env, s, w)), env.eos);
    hide Prefilled, PlaceAll, FreePlaces;
    if IsRunning(s.running, c) {
      var i :| 0 <= i < |s.running| && s.running[i].Some? && s.running[i].value.clientIndex == c;
      var j := PlacedCase(s.running, entries, i);
      assert s'.running[i].Some?;
    } else {
      PlacedNew(s.running, entries, c - Admitted(env, s));
      assert s'.running[FreePlaces(s.running, |s.running|)[c - Admitted(env, s)]].Some?;
    }
  }
}
