/** How much room a run needs: one that ends well has had room for the admission and for the whole decoding
    of every client. */
module RoomNeeded {
  import opened Prelude
  import opened Decoding
  import opened BlockPool
  import opened SlotMapping
  import opened PagedKvCache
  import opened PagedCacheRuntime
  import opened DecodeStep
  import opened DecodeSoundness
  import opened PagedBatchPrefill
  import opened ContinuousBatch
  import opened CapacityBounds
  import opened DecodePass
  import opened SchedulerPass
  import opened Admission
  import opened BatchRuns
  import opened ServedRuns

  // ----- the room a client needs

  ghost function Output(env: Env, c: nat): seq<Token>
    requires c < |env.prompts|
  {
    Greedy(env.net, env.eos, env.prompts[c], env.maxNew)
  }

  /** The most tokens a client ever holds: its prompt, its output, and the end token that is allocated for
      before it is looked at. A first token that ends the sequence is never allocated for. */
  ghost function PeakTokens(env: Env, c: nat): nat
    requires c < |env.prompts|
  {
    |env.prompts[c]| + if Output(env, c) == [] then 0 else Min(|Output(env, c)| + 1, env.maxNew)
  }

  ghost predicate PeakFits(env: Env, bs: nat, c: nat)
    requires bs > 0 && c < |env.prompts|
  {
    DivCeil(PeakTokens(env, c), bs) <= Capacity(env.numBlocks)
  }

  /** A request's blocks and the free ones are blocks of the pool. */
  lemma TableAndFree(p: Pool, numBlocks: nat, id: nat)
    requires Valid(p, numBlocks)
    ensures |Table(p, id)| + |p.free| <= Capacity(numBlocks)
  {
    hide BlockIds;
    var both := Table(p, id) + p.free;
    forall i, j | 0 <= i < j < |both|
      ensures both[i] != both[j]
    {
      if i < |Table(p, id)| <= j {
        assert Owns(p, id, both[i]) && both[j] in p.free;
      }
    }
    NoDupSetSize(both);
    var ids := BlockIds(numBlocks);
    forall b | b in Elements(both)
      ensures b in ids
    {
      if b !in p.free {
        assert Owns(p, id, b);
      }
    }
    SubsetCount(Elements(both), ids);
  }

  lemma {:induction false} SubsetCount(a: set<nat>, b: set<nat>)
    requires a <= b
    ensures |a| <= |b|
  {
    if a != {} {
      var x :| x in a;
      SubsetCount(a - {x}, b - {x});
    }
  }

  lemma CoveredFits(p: Pool, numBlocks: nat, id: nat, n: nat)
    requires Valid(p, numBlocks) && Covers(Table(p, id), p.blockSize, n)
    ensures DivCeil(n, p.blockSize) <= Capacity(numBlocks)
  {
    TableAndFree(p, numBlocks, id);
    DivCeilLeast(n, p.blockSize, |Table(p, id)|);
  }

  // ----- a run that is done had room

  /** A prompt the scheduler admits into an idle pool. */
  ghost predicate Admissible(env: Env, bs: nat, c: nat)
    requires bs > 0 && c < |env.lens|
  {
    DivCeil(env.lens[c], bs) + 1 <= Capacity(env.numBlocks)
  }

  /** The pool can serve the client from its admission to its last token. */
  ghost predicate Servable(env: Env, bs: nat, c: nat)
    requires bs > 0 && c < |env.prompts| == |env.lens|
  {
    Admissible(env, bs, c) && PeakFits(env, bs, c)
  }

  /** A sequence that has ended had room to its end. */
  ghost predicate EndFits(env: Env, bs: nat, c: nat, s: DecodeSlot)
    requires bs > 0 && c < |env.prompts|
  {
    s.finished ==> PeakFits(env, bs, c)
  }

  /** A running sequence was admitted; if it has ended it had room to its end, and if not, its first token
      did not end it. */
  ghost predicate SlotRoom(env: Env, bs: nat, entry: RunningSlot)
    requires bs > 0
  {
    && entry.clientIndex < |env.prompts| == |env.lens|
    && Admissible(env, bs, entry.clientIndex)
    && EndFits(env, bs, entry.clientIndex, entry.slot)
    && (!entry.slot.finished ==> Output(env, entry.clientIndex) != [])
  }

  ghost predicate RunningRoom(env: Env, bs: nat, running: seq<Option<RunningSlot>>)
    requires bs > 0
  {
    forall i :: 0 <= i < |running| && running[i].Some? ==> SlotRoom(env, bs, running[i].value)
  }

  /** All clients that are done were servable, and those that run have had room so far. */
  ghost predicate Room(env: Env, bs: nat, s: Sched) {
    && bs > 0 && |s.waiting| <= |env.prompts| == |env.lens|
    && RunningRoom(env, bs, s.running)
    && forall c: nat :: c < Admitted(env, s) && !IsRunning(s.running, c) ==> Servable(env, bs, c)
  }

  /** A slot that a step ends had room for its last token. */
  lemma StepEndFits(env: Env, c: Cache, slots: seq<DecodeSlot>, step: nat, prompts: seq<seq<Item>>, i: nat, client: nat)
    requires c.pool.blockSize > 0 && StepInput(env.net, env.numBlocks, c, slots, step, env.maxNew, env.eos, prompts)
    requires i < |slots|
    requires client < |env.prompts| && env.prompts[client] == prompts[i]
    requires EndFits(env, c.pool.blockSize, client, slots[i])
    requires !Bumps(c, slots, step, env.maxNew, env.eos)
    ensures EndFits(env, c.pool.blockSize, client,
                    DecodeAtStep(env.net, env.numBlocks, c, slots, step, env.maxNew, env.eos).slots[i])
  {
    hide PeakFits, Bumps, DecodeAtStep, StepInput, PeakTokens, Output, Decodable;
    var r := DecodeAtStep(env.net, env.numBlocks, c, slots, step, env.maxNew, env.eos);
    if r.slots[i].finished && !slots[i].finished {
      if step < env.maxNew {
        StepEndsInRoom(env, c, slots, step, prompts, i, client);
      } else {
        BudgetEndsInRoom(env, c, slots, step, prompts, i, client);
      }
    }
  }

  /** What a right step leaves in a slot it ends is its client's output. */
  lemma EndedOutput(env: Env, c: Cache, slots: seq<DecodeSlot>, step: nat, prompts: seq<seq<Item>>, i: nat, client: nat)
    requires c.pool.blockSize > 0 && StepInput(env.net, env.numBlocks, c, slots, step, env.maxNew, env.eos, prompts)
    requires i < |slots|
    requires client < |env.prompts| && env.prompts[client] == prompts[i]
    requires !Bumps(c, slots, step, env.maxNew, env.eos)
    requires DecodeAtStep(env.net, env.numBlocks, c, slots, step, env.maxNew, env.eos).slots[i].finished
    ensures DecodeAtStep(env.net, env.numBlocks, c, slots, step, env.maxNew, env.eos).slots[i].generated ==
              Output(env, client)
    ensures !slots[i].finished ==>
              slots[i].promptLen == |env.prompts[client]| &&
                Covers(Table(c.pool, slots[i].requestId), c.pool.blockSize, slots[i].promptLen + |slots[i].generated|)
  {
    hide Bumps, DecodeAtStep, GreedyComplete, Greedy;
    StepRightIff(env.net, env.numBlocks, c, slots, step, env.maxNew, env.eos, prompts);
    GreedyCharacterised(env.net, env.eos, prompts[i], env.maxNew,
                        DecodeAtStep(env.net, env.numBlocks, c, slots, step, env.maxNew, env.eos).slots[i].generated);
  }

  lemma StepEndsInRoom(env: Env, c: Cache, slots: seq<DecodeSlot>, step: nat, prompts: seq<seq<Item>>, i: nat,
                       client: nat)
    requires c.pool.blockSize > 0 && StepInput(env.net, env.numBlocks, c, slots, step, env.maxNew, env.eos, prompts)
    requires i < |slots| && step < env.maxNew
    requires client < |env.prompts| && env.prompts[client] == prompts[i] && !slots[i].finished
    requires !Bumps(c, slots, step, env.maxNew, env.eos)
    requires DecodeAtStep(env.net, env.numBlocks, c, slots, step, env.maxNew, env.eos).slots[i].finished
    ensures PeakFits(env, c.pool.blockSize, client)
  {
    hide PeakFits, Bumps, DecodeAtStep, Decodable, Covers, Sound, Output;
    EndedOutput(env, c, slots, step, prompts, i, client);
    FinishedInStep(env.net, env.numBlocks, c, slots, step, env.maxNew, env.eos, i);
    AfterGrow(env.numBlocks, c, slots, step);
    CoveredFits(Decodable(c, slots, step).0, env.numBlocks, slots[i].requestId, TokensAfter(slots[i]));
    PeakWithin(env, c.pool.blockSize, client, TokensAfter(slots[i]));
  }

  lemma AtLastStep(env: Env, c: Cache, slots: seq<DecodeSlot>, step: nat, prompts: seq<seq<Item>>, i: nat)
    requires c.pool.blockSize > 0 && StepInput(env.net, env.numBlocks, c, slots, step, env.maxNew, env.eos, prompts)
    requires i < |slots| && step >= env.maxNew && !slots[i].finished
    ensures |slots[i].generated| == env.maxNew && Valid(c.pool, env.numBlocks)
  {
  }

  lemma BudgetEndsInRoom(env: Env, c: Cache, slots: seq<DecodeSlot>, step: nat, prompts: seq<seq<Item>>, i: nat,
                         client: nat)
    requires c.pool.blockSize > 0 && StepInput(env.net, env.numBlocks, c, slots, step, env.maxNew, env.eos, prompts)
    requires i < |slots| && step >= env.maxNew
    requires client < |env.prompts| && env.prompts[client] == prompts[i] && !slots[i].finished
    requires !Bumps(c, slots, step, env.maxNew, env.eos)
    requires DecodeAtStep(env.net, env.numBlocks, c, slots, step, env.maxNew, env.eos).slots[i].finished
    ensures PeakFits(env, c.pool.blockSize, client)
  {
    hide PeakFits, Bumps, DecodeAtStep, Covers, Sound, Output, StepInput, BlockPool.Valid, DivCeil;
    AtLastStep(env, c, slots, step, prompts, i);
    EndedOutput(env, c, slots, step, prompts, i, client);
    CoveredFits(c.pool, env.numBlocks, slots[i].requestId, slots[i].promptLen + |slots[i].generated|);
    PeakWithin(env, c.pool.blockSize, client, slots[i].promptLen + |slots[i].generated|);
  }

  lemma PeakWithin(env: Env, bs: nat, client: nat, n: nat)
    requires bs > 0 && client < |env.prompts| && PeakTokens(env, client) <= n
    requires DivCeil(n, bs) <= Capacity(env.numBlocks)
    ensures PeakFits(env, bs, client)
  {
    DivCeilMonotone(PeakTokens(env, client), n, bs);
  }

  /** Only a granted slot whose pending token is an end token finishes in a step. */
  lemma FinishedInStep(net: Network, numBlocks: nat, c: Cache, slots: seq<DecodeSlot>, step: nat, maxNew: nat,
                       eos: seq<Token>, i: nat)
    requires c.pool.blockSize > 0 && i < |slots| && step < maxNew && !slots[i].finished
    requires DecodeAtStep(net, numBlocks, c, slots, step, maxNew, eos).slots[i].finished
    ensures i in Decodable(c, slots, step).1 && slots[i].nextId in eos
    ensures DecodeAtStep(net, numBlocks, c, slots, step, maxNew, eos).slots[i].generated == slots[i].generated
  {
    SelectionDistinct(c, slots, step);
    var (p, decodable) := Decodable(c, slots, step);
    TakenShape(p, slots, decodable, eos, i);
    var (q, taken, active) := Taken(p, slots, decodable, eos);
    if slots != [] && eos != [] && decodable != [] && active != [] &&
      DecodeStepOk(Tables(q, Ids(taken, active)), PromptLens(taken, active), q.blockSize, numBlocks, step) {
      var next := ForwardActive(net, q, c.kv, taken, active, step, PendingTokens(taken, active)).1;
      AdvancedShape(taken, active, next, i);
    }
  }

  // ----- every phase of a pass keeps the room

  lemma FreeStepRoom(env: Env, bs: nat, s: Sched, i: nat)
    requires Room(env, bs, s) && i < |s.running|
    ensures Room(env, bs, FreeStep(s, i))
  {
    var s' := FreeStep(s, i);
    if s' != s {
      hide Servable, SlotRoom;
      forall c: nat | c < Admitted(env, s') && !IsRunning(s'.running, c)
        ensures Servable(env, bs, c)
      {
        if c == s.running[i].value.clientIndex {
          EndedServable(env, bs, s.running[i].value);
        } else {
          StaysRunning(s, i, c);
        }
      }
    }
  }

  lemma EndedServable(env: Env, bs: nat, entry: RunningSlot)
    requires bs > 0 && SlotRoom(env, bs, entry) && entry.slot.finished
    ensures entry.clientIndex < |env.prompts| == |env.lens| && Servable(env, bs, entry.clientIndex)
  {
  }

  lemma {:induction false} FreeFinishedRoom(env: Env, bs: nat, s: Sched, k: nat)
    requires Room(env, bs, s) && k <= |s.running|
    ensures Room(env, bs, FreeFinished(s, k))
  {
    hide Room, FreeStep;
    if k > 0 {
      FreeFinishedRoom(env, bs, s, k - 1);
      FreeStepRoom(env, bs, FreeFinished(s, k - 1), k - 1);
    }
  }

  /** The same clients in the same places, each with its room. */
  lemma SameRoom(env: Env, bs: nat, s: Sched, t: Sched)
    requires Room(env, bs, s) && t.waiting == s.waiting && |s.running| == |t.running|
    requires forall i :: 0 <= i < |s.running| ==> SamePlace(s.running[i], t.running[i])
    requires RunningRoom(env, bs, t.running)
    ensures Room(env, bs, t)
  {
    hide Servable, SlotRoom;
    SameClients(s.running, t.running);
  }

  /** A running sequence stays in the room while a group decodes. */
  lemma MemberRoom(env: Env, s: Sched, step: nat, idxs: seq<nat>, i: nat)
    requires Healthy(env, s) && GroupOf(s.running, step, idxs) && env.eos != [] && i < |s.running| && s.running[i].Some?
    requires SlotRoom(env, s.cache.pool.blockSize, s.running[i].value)
    requires !Bumps(s.cache, BatchOf(s.running, idxs), step, env.maxNew, env.eos)
    ensures var t := GroupStep(env, s, step, idxs).1;
            t.running[i].Some? && SlotRoom(env, s.cache.pool.blockSize, t.running[i].value)
  {
    var slots, prompts := BatchOf(s.running, idxs), GroupPrompts(env, s.running, idxs);
    GroupIsStepInput(env, s, step, idxs);
    GroupStepShape(env, s, step, idxs, i);
    hide Healthy, DecodeAtStep, PutBack, Bumps, PeakFits, Output, StepInput, GroupStep;
    if i in idxs {
      var d := DecodeAtStep(env.net, env.numBlocks, s.cache, slots, step, env.maxNew, env.eos);
      var k :| 0 <= k < |idxs| && idxs[k] == i &&
        GroupStep(env, s, step, idxs).1.running[i] == Some(s.running[i].value.(slot := d.slots[k]));
      assert TakesPart(s.running[idxs[k]].value.slot, step);
      StepEndFits(env, s.cache, slots, step, prompts, k, s.running[i].value.clientIndex);
    }
  }

  lemma GroupRoom(env: Env, s: Sched, step: nat, idxs: seq<nat>)
    requires Healthy(env, s) && GroupOf(s.running, step, idxs) && env.eos != []
    requires Room(env, s.cache.pool.blockSize, s)
    requires !Bumps(s.cache, BatchOf(s.running, idxs), step, env.maxNew, env.eos)
    ensures Room(env, s.cache.pool.blockSize, GroupStep(env, s, step, idxs).1)
  {
    var t := GroupStep(env, s, step, idxs).1;
    hide Healthy, GroupStep, Bumps, SlotRoom;
    forall i | 0 <= i < |s.running|
      ensures SamePlace(s.running[i], t.running[i])
      ensures t.running[i].Some? ==> SlotRoom(env, s.cache.pool.blockSize, t.running[i].value)
    {
      GroupStepAt(env, s, step, idxs, i);
      if s.running[i].Some? {
        MemberRoom(env, s, step, idxs, i);
      }
    }
    SameRoom(env, s.cache.pool.blockSize, s, t);
  }

  lemma {:induction false} GroupsRoom(env: Env, s: Sched, groups: Groups, k: nat)
    requires s.cache.pool.blockSize > 0 && Healthy(env, s) && Grouping(s.running, groups) && env.eos != []
    requires k <= |groups|
    requires forall g :: 0 <= g < k ==> !BumpsAt(env, s, groups, g)
    requires Room(env, s.cache.pool.blockSize, s)
    ensures Room(env, s.cache.pool.blockSize, RunGroups(env, s, groups, k).1)
  {
    hide Healthy, Grouping, BumpsAt, RunGroups, Room;
    if k > 0 {
      GroupsRoom(env, s, groups, k - 1);
      GroupsHealthy(env, s, groups, k - 1);
      NextGroupRoom(env, s, groups, k);
    } else {
      NoGroups(env, s, groups);
    }
  }

  lemma NextGroupRoom(env: Env, s: Sched, groups: Groups, k: nat)
    requires s.cache.pool.blockSize > 0 && Grouping(s.running, groups) && env.eos != [] && 0 < k <= |groups|
    requires RunGroups(env, s, groups, k - 1).0 && Healthy(env, RunGroups(env, s, groups, k - 1).1)
    requires !BumpsAt(env, s, groups, k - 1)
    requires Room(env, s.cache.pool.blockSize, RunGroups(env, s, groups, k - 1).1)
    ensures Room(env, s.cache.pool.blockSize, RunGroups(env, s, groups, k).1)
  {
    hide Healthy, GroupStep, Grouping, Bumps, BatchOf, Room;
    StillGroup(env, s, groups, k - 1, k - 1);
    GroupRoom(env, RunGroups(env, s, groups, k - 1).1, groups[k - 1].0, groups[k - 1].1);
  }

  /** A sequence whose budget is spent has had room for all of it. */
  lemma SpentRoom(env: Env, s: Sched, i: nat)
    requires Healthy(env, s) && i < |s.running| && s.running[i].Some?
    requires SlotRoom(env, s.cache.pool.blockSize, s.running[i].value)
    ensures SlotRoom(env, s.cache.pool.blockSize, MarkSlot(s.running[i], env.maxNew).value)
  {
    hide PeakFits, Cached, Covers, GreedyPrefix, GreedyComplete, NextToken, Output;
    var entry := s.running[i].value;
    if MarkSlot(s.running[i], env.maxNew) != s.running[i] {
      SpentFits(env, s.cache, entry.clientIndex, entry.slot);
    }
  }

  lemma SpentFits(env: Env, c: Cache, client: nat, slot: DecodeSlot)
    requires ValidCache(c, env.numBlocks) && c.pool.blockSize > 0 && client < |env.prompts|
    requires Sound(env.net, env.eos, env.maxNew, c.pool, c.kv, env.prompts[client], slot) && !slot.finished
    requires slot.decodeStep >= env.maxNew
    ensures PeakFits(env, c.pool.blockSize, client)
  {
    hide PeakFits, Cached, Covers, GreedyPrefix, BlockPool.Valid;
    SoundIsCached(env.net, env.eos, env.maxNew, c.pool, c.kv, env.prompts[client], slot);
    CoveredFits(c.pool, env.numBlocks, slot.requestId, slot.promptLen + |slot.generated|);
    PeakWithin(env, c.pool.blockSize, client, slot.promptLen + |slot.generated|);
  }

  lemma MarkedRoom(env: Env, s: Sched)
    requires Healthy(env, s) && Room(env, s.cache.pool.blockSize, s)
    ensures Room(env, s.cache.pool.blockSize, s.(running := MarkSpent(s.running, env.maxNew)))
  {
    var t := s.(running := MarkSpent(s.running, env.maxNew));
    hide Healthy, SlotRoom;
    forall i | 0 <= i < |s.running| && s.running[i].Some?
      ensures SlotRoom(env, s.cache.pool.blockSize, t.running[i].value)
    {
      SpentRoom(env, s, i);
    }
    SameRoom(env, s.cache.pool.blockSize, s, t);
  }

  lemma DecodeRoom(env: Env, s: Sched)
    requires s.cache.pool.blockSize > 0 && Healthy(env, s) && env.eos != [] && !PassBumps(env, s)
    requires Room(env, s.cache.pool.blockSize, s)
    ensures Room(env, s.cache.pool.blockSize, DecodePart(env, s).1)
  {
    hide WellFormed, Truthful, RunGroups, FreeFinished, StepGroups, BumpsAt, Room, MarkSpent;
    var bs := s.cache.pool.blockSize;
    FreeFinishedKeeps(env, s, |s.running|);
    FreeFinishedRoom(env, bs, s, |s.running|);
    var s1 := FreeFinished(s, |s.running|);
    StepGroupsGroup(s1);
    GroupsHealthy(env, s1, StepGroups(s1), |StepGroups(s1)|);
    GroupsRoom(env, s1, StepGroups(s1), |StepGroups(s1)|);
    var s2 := RunGroups(env, s1, StepGroups(s1), |StepGroups(s1)|).1;
    MarkedRoom(env, s2);
    var s3 := s2.(running := MarkSpent(s2.running, env.maxNew));
    FreeFinishedRoom(env, bs, s3, |s3.running|);
  }

  // ----- admission

  /** Whoever is admitted could have been admitted into an idle pool. */
  lemma AdmittedAdmissible(env: Env, s: Sched, j: nat)
    requires Queued(env, s) && j < Wave(env, s)
    ensures Admissible(env, s.cache.pool.blockSize, Admitted(env, s) + j)
  {
    var lens := env.lens[Admitted(env, s)..];
    var bs, used, count := s.cache.pool.blockSize, Held(s.cache.pool, RunningIds(s.running)), |RunningIds(s.running)|;
    hide Held, RunningIds, FreePlaces, DivCeil;
    WaveIsGreedy(lens, bs, used, count, |FreePlaces(s.running, |s.running|)|, Capacity(env.numBlocks), 0);
    assert MayAdmit(lens, bs, used, count, Capacity(env.numBlocks), j);
  }

  /** A first token that ends the sequence leaves an empty output, whose room is the prompt's. */
  lemma FirstEnds(env: Env, bs: nat, c: nat)
    requires bs > 0 && c < |env.prompts| == |env.lens| && env.lens[c] == |env.prompts[c]| && Admissible(env, bs, c)
    requires env.maxNew > 0
    ensures Output(env, c) == [] <==> NextToken(env.net, env.prompts[c]) in env.eos
    ensures Output(env, c) == [] ==> PeakFits(env, bs, c)
  {
  }

  lemma NewcomerRoom(env: Env, s: Sched, j: nat)
    requires Queued(env, s) && j < Wave(env, s) && env.maxNew > 0
    requires forall c :: 0 <= c < |env.prompts| ==> env.lens[c] == |env.prompts[c]|
    ensures SlotRoom(env, s.cache.pool.blockSize,
                     Entries(Admitted(env, s), s.nextId, WaveLens(env, s, Wave(env, s)),
                             FirstTokens(env.net, WavePrompts(env, s, Wave(env, s))), env.eos)[j])
  {
    hide Wave, Output, PeakFits, NextToken, Admissible;
    AdmittedAdmissible(env, s, j);
    FirstEnds(env, s.cache.pool.blockSize, Admitted(env, s) + j);
    assert WavePrompts(env, s, Wave(env, s))[j] == env.prompts[Admitted(env, s) + j];
  }

  lemma AdmitRoom(env: Env, s: Sched, s': Sched)
    requires Queued(env, s) && Admits(env, s, Wave(env, s), s') && env.maxNew > 0
    requires forall c :: 0 <= c < |env.prompts| ==> env.lens[c] == |env.prompts[c]|
    requires Room(env, s.cache.pool.blockSize, s)
    ensures Room(env, s.cache.pool.blockSize, s')
  {
    var w, bs := Wave(env, s), s.cache.pool.blockSize;
    var entries :=
      Entries(Admitted(env, s), s.nextId, WaveLens(env, s, w), FirstTokens(env.net, WavePrompts(env, s, w)), env.eos);
    hide Prefilled, PlaceAll, FreePlaces, Wave, SlotRoom, Servable;
    forall i | 0 <= i < |s'.running| && s'.running[i].Some?
      ensures SlotRoom(env, bs, s'.running[i].value)
    {
      var j := PlacedCase(s.running, entries, i);
      if j < w {
        NewcomerRoom(env, s, j);
      }
    }
    forall c: nat | c < Admitted(env, s') && !IsRunning(s'.running, c)
      ensures Servable(env, bs, c)
    {
      if c >= Admitted(env, s) || IsRunning(s.running, c) {
        RunsAfter(env, s, w, s', c);
      }
    }
  }

  // ----- passes and runs

  /** The masks give the prompts' lengths. */
  ghost predicate LensMatch(env: Env) {
    |env.lens| == |env.prompts| && forall c :: 0 <= c < |env.prompts| ==> env.lens[c] == |env.prompts[c]|
  }

  lemma PassRoom(env: Env, s: Sched, s': Sched)
    requires Healthy(env, s) && env.eos != [] && env.maxNew > 0 && LensMatch(env) && Pass(env, s, s')
    requires !PassBumps(env, s)
    requires Room(env, s.cache.pool.blockSize, s)
    ensures s'.cache.pool.blockSize == s.cache.pool.blockSize && Room(env, s.cache.pool.blockSize, s')
  {
    hide Healthy, DecodePart, Admits, PassBumps, Room, Wave;
    DecodeRoom(env, s);
    var t := DecodePart(env, s).1;
    if Wave(env, t) > 0 {
      BlockSizeKept(env, t, Wave(env, t), s');
      AdmitRoom(env, t, s');
    }
  }

  lemma StartRoom(env: Env, c: Cache, base: nat)
    requires ValidCache(c, env.numBlocks) && LensMatch(env)
    ensures Room(env, c.pool.blockSize, Start(env, c, base))
  {
  }

  lemma {:induction false} EveryStateRoom(env: Env, c: Cache, base: nat, trace: seq<Sched>, i: nat)
    requires ValidCache(c, env.numBlocks) && LensMatch(env) && env.eos != [] && env.maxNew > 0
    requires i < |trace| && trace[0] == Start(env, c, base) && BatchRuns.Run(env, trace) && NoBumps(env, trace[..i])
    ensures Healthy(env, trace[i]) && trace[i].cache.pool.blockSize == c.pool.blockSize
    ensures Room(env, c.pool.blockSize, trace[i])
  {
    hide Healthy, PassBumps, Pass, Room, Start;
    if i > 0 {
      assert forall j :: 0 <= j < i - 1 ==> trace[..i - 1][j] == trace[..i][j];
      EveryStateRoom(env, c, base, trace, i - 1);
      assert trace[..i][i - 1] == trace[i - 1];
      assert PassAt(env, trace, i);
      PassRoom(env, trace[i - 1], trace[i]);
      PassKeepsHealth(env, trace[i - 1], trace[i]);
    } else {
      StartHealthy(env, c, base);
      StartRoom(env, c, base);
      StartSized(env, c, base);
    }
  }

  lemma StartSized(env: Env, c: Cache, base: nat)
    ensures Start(env, c, base).cache == c
  {
  }

  /** No run serves a client that the pool could not serve alone: whoever a run that never takes the losing
      branch has finished with was admissible and had room for its whole decoding. */
  lemma FinishedWereServable(env: Env, c: Cache, base: nat, trace: seq<Sched>, client: nat)
    requires ValidCache(c, env.numBlocks) && LensMatch(env) && env.eos != [] && env.maxNew > 0
    requires trace != [] && trace[0] == Start(env, c, base) && BatchRuns.Run(env, trace)
    requires NoBumps(env, trace[..|trace| - 1])
    requires var last := trace[|trace| - 1]; |last.waiting| <= |env.prompts| && DoneClient(env, last, client)
    ensures Servable(env, c.pool.blockSize, client)
  {
    hide Servable, Healthy, Start, BatchRuns.Run;
    EveryStateRoom(env, c, base, trace, |trace| - 1);
    NotRunningIs(trace[|trace| - 1].running, client);
  }

  lemma NotRunningIs(running: seq<Option<RunningSlot>>, c: nat)
    requires NotRunning(running, c)
    ensures !IsRunning(running, c)
  {
  }
}
