/** The scheduler's state as a value, its phases as functions, and what every phase keeps. */
module ContinuousBatch {
  import opened Prelude
  import opened Decoding
  import opened BlockPool
  import opened SlotMapping
  import opened PagedCacheRuntime
  import opened DecodeStep
  import opened DecodeSoundness

  datatype RunningSlot = RunningSlot(clientIndex: nat, slot: DecodeSlot)

  /** What does not change during a run: `lens` are the prompt lengths the masks give, `prompts` the
      clients' prompts with their audio. */
  datatype Env = Env(net: Network, eos: seq<Token>, maxNew: nat, lens: seq<nat>, prompts: seq<seq<Item>>,
                     numBlocks: nat, maxSlots: nat)

  datatype Sched = Sched(cache: Cache, waiting: seq<nat>, running: seq<Option<RunningSlot>>, outputs: seq<seq<Token>>,
                         nextId: nat)

  ghost predicate IsRunning(running: seq<Option<RunningSlot>>, client: nat) {
    exists i :: 0 <= i < |running| && running[i].Some? && running[i].value.clientIndex == client
  }

  lemma SameClients(a: seq<Option<RunningSlot>>, b: seq<Option<RunningSlot>>)
    requires |a| == |b|
    requires forall i :: 0 <= i < |a| ==> (a[i].Some? <==> b[i].Some?)
    requires forall i :: 0 <= i < |a| && a[i].Some? ==> a[i].value.clientIndex == b[i].value.clientIndex
    ensures forall c: nat :: IsRunning(a, c) <==> IsRunning(b, c)
  {
    forall c: nat | IsRunning(a, c)
      ensures IsRunning(b, c)
    {
      var j :| 0 <= j < |a| && a[j].Some? && a[j].value.clientIndex == c;
      assert b[j].Some?;
    }
  }

  function Admitted(env: Env, s: Sched): nat
    requires |s.waiting| <= |env.prompts|
  {
    |env.prompts| - |s.waiting|
  }

  /** Holds in every state, right or wrong: blocks partitioned, the queue is the clients not yet
      admitted, in order, and no client or request id runs twice. */
  ghost predicate WellFormed(env: Env, s: Sched) {
    && ValidCache(s.cache, env.numBlocks)
    && |s.running| == env.maxSlots
    && |s.outputs| == |env.prompts| == |env.lens|
    && |s.waiting| <= |env.prompts|
    && (forall i :: 0 <= i < |s.waiting| ==> s.waiting[i] == |env.prompts| - |s.waiting| + i)
    && (forall i :: 0 <= i < |s.running| && s.running[i].Some? ==>
          s.running[i].value.clientIndex < |env.prompts| - |s.waiting| && s.running[i].value.slot.requestId < s.nextId)
    && (forall i, j :: 0 <= i < j < |s.running| && s.running[i].Some? && s.running[j].Some? ==>
          && s.running[i].value.clientIndex != s.running[j].value.clientIndex
          && s.running[i].value.slot.requestId != s.running[j].value.slot.requestId)
  }

  /** Running sequences are on the greedy path of their own prompt; clients that are done have
      exactly the output of decoding their prompt alone. */
  ghost predicate Truthful(env: Env, s: Sched)
    requires WellFormed(env, s)
  {
    && (forall i :: 0 <= i < |s.running| && s.running[i].Some? ==>
          Sound(env.net, env.eos, env.maxNew, s.cache.pool, s.cache.kv, env.prompts[s.running[i].value.clientIndex],
                s.running[i].value.slot))
    && (forall c :: 0 <= c < Admitted(env, s) && !IsRunning(s.running, c) ==>
          s.outputs[c] == Greedy(env.net, env.eos, env.prompts[c], env.maxNew))
  }

  ghost predicate Healthy(env: Env, s: Sched) {
    WellFormed(env, s) && Truthful(env, s)
  }

  // ----- collecting finished slots

  function Store(outputs: seq<seq<Token>>, client: nat, generated: seq<Token>): (r: seq<seq<Token>>)
    ensures |r| == |outputs|
  {
    if client < |outputs| then outputs[client := generated] else outputs
  }

  function FreeStep(s: Sched, i: nat): (s': Sched)
    requires i < |s.running|
  {
    if s.running[i].Some? && s.running[i].value.slot.finished then
      var entry := s.running[i].value;
      s.(cache := s.cache.(pool := Release(s.cache.pool, entry.slot.requestId)),
         running := s.running[i := None],
         outputs := Store(s.outputs, entry.clientIndex, entry.slot.generated))
    else s
  }

  ghost function FreeFinished(s: Sched, k: nat): (s': Sched)
    requires k <= |s.running|
    ensures |s'.running| == |s.running| && s'.cache.pool.blockSize == s.cache.pool.blockSize
  {
    if k == 0 then s else FreeStep(FreeFinished(s, k - 1), k - 1)
  }

  lemma FreeStepWellFormed(env: Env, s: Sched, i: nat)
    requires WellFormed(env, s) && i < |s.running|
    ensures WellFormed(env, FreeStep(s, i))
  {
    if s.running[i].Some? {
      ReleaseValid(s.cache.pool, s.running[i].value.slot.requestId, env.numBlocks);
    }
  }

  lemma FreeStepHealthy(env: Env, s: Sched, i: nat)
    requires Healthy(env, s) && i < |s.running|
    ensures Healthy(env, FreeStep(s, i))
  {
    FreeStepWellFormed(env, s, i);
    var s' := FreeStep(s, i);
    if s' != s {
      hide Sound, Greedy;
      forall j | 0 <= j < |s'.running| && s'.running[j].Some?
        ensures Sound(env.net, env.eos, env.maxNew, s'.cache.pool, s'.cache.kv,
                      env.prompts[s'.running[j].value.clientIndex], s'.running[j].value.slot)
      {
        SoundFrame(env.net, env.eos, env.maxNew, s.cache.pool, s'.cache.pool, s.cache.kv,
                   env.prompts[s.running[j].value.clientIndex], s.running[j].value.slot);
      }
      forall c: nat | c < Admitted(env, s') && !IsRunning(s'.running, c)
        ensures s'.outputs[c] == Greedy(env.net, env.eos, env.prompts[c], env.maxNew)
      {
        FreedOutput(env, s, i, c);
      }
    }
  }

  /** A collected sequence had ended, so its tokens are its client's output. */
  lemma FreedOutput(env: Env, s: Sched, i: nat, c: nat)
    requires Healthy(env, s) && i < |s.running| && s.running[i].Some? && s.running[i].value.slot.finished
    requires c < Admitted(env, s) && !IsRunning(FreeStep(s, i).running, c)
    ensures FreeStep(s, i).outputs[c] == Greedy(env.net, env.eos, env.prompts[c], env.maxNew)
  {
    var entry := s.running[i].value;
    if c == entry.clientIndex {
      GreedyCharacterised(env.net, env.eos, env.prompts[c], env.maxNew, entry.slot.generated);
    } else {
      StaysRunning(s, i, c);
    }
  }

  lemma StaysRunning(s: Sched, i: nat, c: nat)
    requires i < |s.running| && s.running[i].Some? && s.running[i].value.clientIndex != c
    ensures IsRunning(s.running, c) ==> IsRunning(FreeStep(s, i).running, c)
  {
    if IsRunning(s.running, c) {
      var j :| 0 <= j < |s.running| && s.running[j].Some? && s.running[j].value.clientIndex == c;
      assert FreeStep(s, i).running[j].Some?;
    }
  }

  lemma {:induction false} FreeFinishedAt(s: Sched, k: nat)
    requires k <= |s.running|
    ensures forall j :: 0 <= j < |s.running| ==>
              FreeFinished(s, k).running[j] == if j < k && s.running[j].Some? &&
                s.running[j].value.slot.finished then None else s.running[j]
    ensures (forall j :: 0 <= j < k && s.running[j].Some? ==> !s.running[j].value.slot.finished) ==>
              FreeFinished(s, k) == s
  {
    if k > 0 {
      FreeFinishedAt(s, k - 1);
    }
  }

  lemma {:induction false} FreeKeepsQueue(s: Sched, k: nat)
    requires k <= |s.running|
    ensures FreeFinished(s, k).waiting == s.waiting && FreeFinished(s, k).nextId == s.nextId
  {
    if k > 0 {
      FreeKeepsQueue(s, k - 1);
    }
  }

  lemma {:induction false} FreeFinishedKeeps(env: Env, s: Sched, k: nat)
    requires WellFormed(env, s) && k <= |s.running|
    ensures WellFormed(env, FreeFinished(s, k))
    ensures Healthy(env, s) ==> Healthy(env, FreeFinished(s, k))
    ensures FreeFinished(s, k).waiting == s.waiting && FreeFinished(s, k).nextId == s.nextId
  {
    hide WellFormed, Healthy, FreeStep;
    FreeKeepsQueue(s, k);
    if k > 0 {
      FreeFinishedKeeps(env, s, k - 1);
      var t := FreeFinished(s, k - 1);
      FreeStepWellFormed(env, t, k - 1);
      if Healthy(env, s) {
        FreeStepHealthy(env, t, k - 1);
      }
    }
  }

  // ----- spent budgets

  function MarkSlot(o: Option<RunningSlot>, maxNew: nat): Option<RunningSlot> {
    if o.Some? && !o.value.slot.finished && o.value.slot.decodeStep >= maxNew
    then Some(o.value.(slot := o.value.slot.(finished := true))) else o
  }

  function MarkSpent(running: seq<Option<RunningSlot>>, maxNew: nat): (r: seq<Option<RunningSlot>>)
    ensures |r| == |running|
  {
    seq(|running|, i requires 0 <= i < |running| => MarkSlot(running[i], maxNew))
  }

  lemma MarkSpentAt(running: seq<Option<RunningSlot>>, maxNew: nat, i: nat)
    requires i < |running|
    ensures var r := MarkSpent(running, maxNew);
            && (r[i].Some? <==> running[i].Some?)
            && (running[i].Some? ==>
                r[i].value.clientIndex == running[i].value.clientIndex &&
                  r[i].value.slot.requestId == running[i].value.slot.requestId)
  {
  }

  lemma MarkSpentWellFormed(env: Env, s: Sched)
    requires WellFormed(env, s)
    ensures WellFormed(env, s.(running := MarkSpent(s.running, env.maxNew)))
  {
    hide MarkSpent;
    forall i | 0 <= i < |s.running|
      ensures MarkSpent(s.running, env.maxNew)[i].Some? <==> s.running[i].Some?
      ensures s.running[i].Some? ==>
                && MarkSpent(s.running, env.maxNew)[i].value.clientIndex == s.running[i].value.clientIndex
                && MarkSpent(s.running, env.maxNew)[i].value.slot.requestId == s.running[i].value.slot.requestId
    {
      MarkSpentAt(s.running, env.maxNew, i);
    }
  }

  lemma MarkedSound(env: Env, s: Sched, i: nat)
    requires Healthy(env, s) && i < |s.running| && s.running[i].Some?
    ensures var o := MarkSlot(s.running[i], env.maxNew);
            Sound(env.net, env.eos, env.maxNew, s.cache.pool, s.cache.kv, env.prompts[s.running[i].value.clientIndex],
                  o.value.slot)
  {
    if MarkSlot(s.running[i], env.maxNew) != s.running[i] {
      FinishedSound(env.net, env.eos, env.maxNew, s.cache.pool, s.cache.kv, env.prompts[s.running[i].value.clientIndex],
                    s.running[i].value.slot);
    }
  }

  lemma MarkSpentHealthy(env: Env, s: Sched)
    requires Healthy(env, s)
    ensures Healthy(env, s.(running := MarkSpent(s.running, env.maxNew)))
  {
    var s' := s.(running := MarkSpent(s.running, env.maxNew));
    MarkSpentWellFormed(env, s);
    hide Sound;
    forall i | 0 <= i < |s'.running| && s'.running[i].Some?
      ensures Sound(env.net, env.eos, env.maxNew, s'.cache.pool, s'.cache.kv,
                    env.prompts[s'.running[i].value.clientIndex], s'.running[i].value.slot)
    {
      MarkedSound(env, s, i);
    }
    SameClients(s.running, s'.running);
  }

  lemma MarkSpentKeeps(env: Env, s: Sched)
    requires WellFormed(env, s)
    ensures WellFormed(env, s.(running := MarkSpent(s.running, env.maxNew)))
    ensures Healthy(env, s) ==> Healthy(env, s.(running := MarkSpent(s.running, env.maxNew)))
  {
    hide WellFormed, Healthy, MarkSpent;
    MarkSpentWellFormed(env, s);
    if Healthy(env, s) {
      MarkSpentHealthy(env, s);
    }
  }

  // ----- decoding one group

  ghost predicate GroupOf(running: seq<Option<RunningSlot>>, step: nat, idxs: seq<nat>) {
    && Indexes(idxs, |running|)
    && NoDup(idxs)
    && forall k :: 0 <= k < |idxs| ==> running[idxs[k]].Some? && TakesPart(running[idxs[k]].value.slot, step)
  }

  function BatchOf(running: seq<Option<RunningSlot>>, idxs: seq<nat>): (slots: seq<DecodeSlot>)
    requires Indexes(idxs, |running|) && forall k :: 0 <= k < |idxs| ==> running[idxs[k]].Some?
    ensures |slots| == |idxs|
  {
    seq(|idxs|, k requires 0 <= k < |idxs| => running[idxs[k]].value.slot)
  }

  function PutBack(running: seq<Option<RunningSlot>>, idxs: seq<nat>, slots: seq<DecodeSlot>,
                   k: nat): (r: seq<Option<RunningSlot>>)
    requires Indexes(idxs, |running|) && k <= |idxs| == |slots|
    ensures |r| == |running|
  {
    if k == 0 then running else
      var r := PutBack(running, idxs, slots, k - 1);
      var i := idxs[k - 1];
      if r[i].Some? then r[i := Some(r[i].value.(slot := slots[k - 1]))] else r
  }

  lemma {:induction false} PutBackAt(running: seq<Option<RunningSlot>>, idxs: seq<nat>, slots: seq<DecodeSlot>, k: nat)
    requires Indexes(idxs, |running|) && k <= |idxs| == |slots| && NoDup(idxs)
    requires forall j :: 0 <= j < |idxs| ==> running[idxs[j]].Some?
    ensures forall j ::
              0 <= j < k ==>
                PutBack(running, idxs, slots, k)[idxs[j]] == Some(running[idxs[j]].value.(slot := slots[j]))
    ensures forall i :: 0 <= i < |running| && i !in idxs[..k] ==> PutBack(running, idxs, slots, k)[i] == running[i]
  {
    if k > 0 {
      PutBackAt(running, idxs, slots, k - 1);
      assert idxs[..k] == idxs[..k - 1] + [idxs[k - 1]];
      assert idxs[k - 1] !in idxs[..k - 1];
    }
  }

  ghost function GroupStep(env: Env, s: Sched, step: nat, idxs: seq<nat>): (r: (bool, Sched))
    requires s.cache.pool.blockSize > 0 && GroupOf(s.running, step, idxs)
    ensures |r.1.running| == |s.running| && r.1.waiting == s.waiting && r.1.nextId == s.nextId
  {
    var slots := BatchOf(s.running, idxs);
    var d := DecodeAtStep(env.net, env.numBlocks, s.cache, slots, step, env.maxNew, env.eos);
    (d.ok, s.(cache := d.cache, running := PutBack(s.running, idxs, d.slots, |idxs|)))
  }

  /** A slot of the group after the step, and a slot outside it. */
  lemma GroupStepShape(env: Env, s: Sched, step: nat, idxs: seq<nat>, i: nat)
    requires s.cache.pool.blockSize > 0 && GroupOf(s.running, step, idxs) && i < |s.running|
    ensures var s' := GroupStep(env, s, step, idxs).1;
            var d := DecodeAtStep(env.net, env.numBlocks, s.cache, BatchOf(s.running, idxs), step, env.maxNew, env.eos);
            && (i !in idxs ==> s'.running[i] == s.running[i])
            && (i in idxs ==>
                exists k :: 0 <= k < |idxs| && idxs[k] == i &&
                  s'.running[i] == Some(s.running[i].value.(slot := d.slots[k]))
                                && d.slots[k].requestId == s.running[i].value.slot.requestId)
  {
    var slots := BatchOf(s.running, idxs);
    var d := DecodeAtStep(env.net, env.numBlocks, s.cache, slots, step, env.maxNew, env.eos);
    PutBackAt(s.running, idxs, d.slots, |idxs|);
    assert idxs[..|idxs|] == idxs;
    if i in idxs {
      var k :| 0 <= k < |idxs| && idxs[k] == i;
      StepProgress(env.net, env.numBlocks, s.cache, slots, step, env.maxNew, env.eos, k);
      assert PutBack(s.running, idxs, d.slots, |idxs|)[idxs[k]] == Some(s.running[i].value.(slot := d.slots[k]));
    }
  }

  lemma GroupStepWellFormed(env: Env, s: Sched, step: nat, idxs: seq<nat>)
    requires WellFormed(env, s) && GroupOf(s.running, step, idxs)
    ensures WellFormed(env, GroupStep(env, s, step, idxs).1)
  {
    var s' := GroupStep(env, s, step, idxs).1;
    StepPartitions(env.net, env.numBlocks, s.cache, BatchOf(s.running, idxs), step, env.maxNew, env.eos);
    forall i | 0 <= i < |s.running|
      ensures s'.running[i].Some? <==> s.running[i].Some?
      ensures s.running[i].Some? ==>
                s'.running[i].value.clientIndex == s.running[i].value.clientIndex &&
                  s'.running[i].value.slot.requestId == s.running[i].value.slot.requestId
    {
      GroupStepShape(env, s, step, idxs, i);
    }
  }

  lemma GroupIdsDistinct(env: Env, s: Sched, idxs: seq<nat>)
    requires WellFormed(env, s) && Indexes(idxs, |s.running|) && NoDup(idxs)
    requires forall k :: 0 <= k < |idxs| ==> s.running[idxs[k]].Some?
    ensures DistinctIds(BatchOf(s.running, idxs))
  {
    var slots := BatchOf(s.running, idxs);
    forall i, j | 0 <= i < j < |slots|
      ensures slots[i].requestId != slots[j].requestId
    {
      assert idxs[i] < idxs[j] || idxs[j] < idxs[i];
    }
  }

  /** The losing branch of the group's step moves the sequence at place `i` on without a token. */
  ghost predicate PlaceLoses(env: Env, s: Sched, step: nat, idxs: seq<nat>, i: nat)
    requires s.cache.pool.blockSize > 0 && GroupOf(s.running, step, idxs)
  {
    exists k: nat :: k < |idxs| && idxs[k] == i &&
      Loses(s.cache, BatchOf(s.running, idxs), step, env.maxNew, env.eos, k)
  }

  /** The running sequence at place `i` is on the greedy path of its prompt. */
  ghost predicate PlaceSound(env: Env, s: Sched, i: nat) {
    && s.cache.pool.blockSize > 0 && i < |s.running| && s.running[i].Some?
    && var entry := s.running[i].value;
    && entry.clientIndex < |env.prompts|
    && Sound(env.net, env.eos, env.maxNew, s.cache.pool, s.cache.kv, env.prompts[entry.clientIndex], entry.slot)
  }

  /** Whatever the others hold, a group that succeeds keeps a sequence on its greedy path if and only if it does
      not move that very sequence on without a token. */
  lemma PlaceSoundIff(env: Env, s: Sched, step: nat, idxs: seq<nat>, i: nat)
    requires s.cache.pool.blockSize > 0 && WellFormed(env, s) && GroupOf(s.running, step, idxs)
    requires GroupStep(env, s, step, idxs).0 && PlaceSound(env, s, i)
    ensures PlaceSound(env, GroupStep(env, s, step, idxs).1, i) <==> !PlaceLoses(env, s, step, idxs, i)
  {
    hide Sound, DecodeAtStep, PutBack, Loses, BlockPool.Valid;
    GroupIdsDistinct(env, s, idxs);
    GroupStepShape(env, s, step, idxs, i);
    if i in idxs {
      MemberSoundIff(env, s, step, idxs, i);
    } else {
      OutsiderKept(env, s, step, idxs, i);
    }
  }

  lemma MemberSoundIff(env: Env, s: Sched, step: nat, idxs: seq<nat>, i: nat)
    requires s.cache.pool.blockSize > 0 && WellFormed(env, s) && GroupOf(s.running, step, idxs)
    requires GroupStep(env, s, step, idxs).0 && PlaceSound(env, s, i) && i in idxs
    ensures PlaceSound(env, GroupStep(env, s, step, idxs).1, i) <==> !PlaceLoses(env, s, step, idxs, i)
  {
    hide Sound, DecodeAtStep, PutBack, Loses, BlockPool.Valid;
    var slots := BatchOf(s.running, idxs);
    GroupIdsDistinct(env, s, idxs);
    GroupStepShape(env, s, step, idxs, i);
    var d := DecodeAtStep(env.net, env.numBlocks, s.cache, slots, step, env.maxNew, env.eos);
    var t := GroupStep(env, s, step, idxs).1;
    var k: nat :| k < |idxs| && idxs[k] == i && t.running[i] == Some(s.running[i].value.(slot := d.slots[k]));
    SlotSoundIff(env.net, env.numBlocks, s.cache, slots, step, env.maxNew, env.eos,
                 env.prompts[s.running[i].value.clientIndex], k);
    assert forall j: nat :: j < |idxs| && idxs[j] == i ==> j == k;
  }

  lemma OutsiderKept(env: Env, s: Sched, step: nat, idxs: seq<nat>, i: nat)
    requires s.cache.pool.blockSize > 0 && WellFormed(env, s) && GroupOf(s.running, step, idxs)
    requires GroupStep(env, s, step, idxs).0 && PlaceSound(env, s, i) && i !in idxs
    ensures PlaceSound(env, GroupStep(env, s, step, idxs).1, i)
  {
    hide DecodeAtStep, PutBack, Cached, GreedyPrefix, GreedyComplete, BlockPool.Valid;
    var slots, entry := BatchOf(s.running, idxs), s.running[i].value;
    GroupIdsDistinct(env, s, idxs);
    GroupStepShape(env, s, step, idxs, i);
    if !entry.slot.finished {
      forall k | 0 <= k < |slots|
        ensures slots[k].requestId != entry.slot.requestId
      {
        assert idxs[k] in idxs;
        assert idxs[k] < i || i < idxs[k];
      }
      StepKeepsOthers(env.net, env.numBlocks, s.cache, slots, step, env.maxNew, env.eos, entry.slot.requestId,
                      Context(env.prompts[entry.clientIndex], entry.slot));
    }
  }

  /** A group that does not take the losing branch keeps the whole schedule truthful. */
  lemma GroupStepTruthful(env: Env, s: Sched, step: nat, idxs: seq<nat>)
    requires WellFormed(env, s) && GroupOf(s.running, step, idxs) && Truthful(env, s) && env.eos != []
    requires !Bumps(s.cache, BatchOf(s.running, idxs), step, env.maxNew, env.eos)
    ensures var r := GroupStep(env, s, step, idxs); r.0 && WellFormed(env, r.1) && Truthful(env, r.1)
  {
    GroupStepWellFormed(env, s, step, idxs);
    GroupIsStepInput(env, s, step, idxs);
    var slots, prompts := BatchOf(s.running, idxs), GroupPrompts(env, s.running, idxs);
    hide Sound, DecodeAtStep, Bumps, PutBack, StepInput, PlaceSound, Truthful, GroupOf;
    StepSucceeds(env.net, env.numBlocks, s.cache, slots, step, env.maxNew, env.eos, prompts);
    var s' := GroupStep(env, s, step, idxs).1;
    forall i | 0 <= i < |s.running|
      ensures StillPlaced(env, s, s', i)
    {
      NoBumpPlace(env, s, step, idxs, i);
    }
    StaysTruthful(env, s, s');
  }

  /** The place is used as before, and rightly. */
  ghost predicate StillPlaced(env: Env, s: Sched, s': Sched, i: nat)
    requires i < |s.running| == |s'.running|
  {
    && (s'.running[i].Some? <==> s.running[i].Some?)
    && (s.running[i].Some? ==> s'.running[i].value.clientIndex == s.running[i].value.clientIndex)
    && (s.running[i].Some? ==> PlaceSound(env, s', i))
  }

  lemma NoBumpPlace(env: Env, s: Sched, step: nat, idxs: seq<nat>, i: nat)
    requires WellFormed(env, s) && GroupOf(s.running, step, idxs) && Truthful(env, s) && i < |s.running|
    requires s.cache.pool.blockSize > 0 && GroupStep(env, s, step, idxs).0
    requires !Bumps(s.cache, BatchOf(s.running, idxs), step, env.maxNew, env.eos)
    ensures StillPlaced(env, s, GroupStep(env, s, step, idxs).1, i)
  {
    hide Sound, DecodeAtStep, PutBack;
    GroupStepShape(env, s, step, idxs, i);
    if s.running[i].Some? {
      assert PlaceSound(env, s, i);
      PlaceSoundIff(env, s, step, idxs, i);
    }
  }

  lemma StaysTruthful(env: Env, s: Sched, s': Sched)
    requires WellFormed(env, s) && WellFormed(env, s') && Truthful(env, s)
    requires |s.running| == |s'.running| && s.waiting == s'.waiting && s.outputs == s'.outputs
    requires forall i :: 0 <= i < |s.running| ==> StillPlaced(env, s, s', i)
    ensures Truthful(env, s')
  {
    hide Sound;
    forall i | 0 <= i < |s.running|
      ensures s'.running[i].Some? <==> s.running[i].Some?
      ensures s.running[i].Some? ==> s'.running[i].value.clientIndex == s.running[i].value.clientIndex
      ensures s.running[i].Some? ==> PlaceSound(env, s', i)
    {
      assert StillPlaced(env, s, s', i);
    }
    SameClients(s.running, s'.running);
  }

  function GroupPrompts(env: Env, running: seq<Option<RunningSlot>>, idxs: seq<nat>): (prompts: seq<seq<Item>>)
    requires Indexes(idxs, |running|)
    requires forall k ::
              0 <= k < |idxs| ==> running[idxs[k]].Some? && running[idxs[k]].value.clientIndex < |env.prompts|
    ensures |prompts| == |idxs|
  {
    seq(|idxs|, k requires 0 <= k < |idxs| => env.prompts[running[idxs[k]].value.clientIndex])
  }

  lemma GroupIsStepInput(env: Env, s: Sched, step: nat, idxs: seq<nat>)
    requires WellFormed(env, s) && GroupOf(s.running, step, idxs) && Truthful(env, s) && env.eos != []
    ensures StepInput(env.net, env.numBlocks, s.cache, BatchOf(s.running, idxs), step, env.maxNew, env.eos,
                      GroupPrompts(env, s.running, idxs))
  {
    hide Sound;
    GroupIdsDistinct(env, s, idxs);
  }

  // ----- the measure

  /** An occupied place counts one, plus what is left of its budget. */
  function LoadAt(o: Option<RunningSlot>, maxNew: nat): nat {
    if o.None? then 0 else 1 + Weight(o.value.slot, maxNew)
  }

  function Load(running: seq<Option<RunningSlot>>, maxNew: nat): nat {
    if running == [] then 0 else Load(running[..|running| - 1], maxNew) + LoadAt(running[|running| - 1], maxNew)
  }

  /** Decreases with every pass that changes anything. */
  function Measure(waiting: seq<nat>, running: seq<Option<RunningSlot>>, maxNew: nat): nat {
    |waiting| * (maxNew + 3) + Load(running, maxNew)
  }

  lemma {:induction false} LoadMonotone(a: seq<Option<RunningSlot>>, b: seq<Option<RunningSlot>>, maxNew: nat)
    requires |a| == |b|
    requires forall i :: 0 <= i < |a| ==> LoadAt(b[i], maxNew) <= LoadAt(a[i], maxNew)
    ensures Load(b, maxNew) <= Load(a, maxNew)
    ensures Load(b, maxNew) == Load(a, maxNew) ==>
              forall i :: 0 <= i < |a| ==> LoadAt(b[i], maxNew) == LoadAt(a[i], maxNew)
  {
    if a != [] {
      var k := |a| - 1;
      LoadMonotone(a[..k], b[..k], maxNew);
      if Load(b, maxNew) == Load(a, maxNew) {
        forall i | 0 <= i < |a|
          ensures LoadAt(b[i], maxNew) == LoadAt(a[i], maxNew)
        {
          if i < k {
            assert LoadAt(b[..k][i], maxNew) == LoadAt(a[..k][i], maxNew);
          }
        }
      }
    }
  }
}
