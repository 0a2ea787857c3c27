/** What the losing branch of a decode step costs, client by client: whoever it never moves on comes out right,
    whatever happens to the others, and whoever it does move on never makes up for it. */
module LosingBranch {
  import opened Prelude
  import opened Decoding
  import opened BlockPool
  import opened PagedKvCache
  import opened PagedCacheRuntime
  import opened DecodeStep
  import opened DecodeSoundness
  import opened PagedBatchPrefill
  import opened ContinuousBatch
  import opened DecodePass
  import opened SchedulerPass
  import opened Admission
  import opened BatchRuns
  import opened RoomNeeded

  // ----- falling behind

  /** The slot is `d` tokens or more behind the steps it has taken. */
  predicate Behind(s: DecodeSlot, d: nat, maxNew: nat) {
    |s.generated| + d <= s.decodeStep <= maxNew
  }

  /** No slot catches up, not even by ending. */
  lemma StepKeepsBehind(net: Network, numBlocks: nat, c: Cache, slots: seq<DecodeSlot>, step: nat, maxNew: nat,
                        eos: seq<Token>, i: nat, d: nat)
    requires c.pool.blockSize > 0 && i < |slots| && Behind(slots[i], d, maxNew)
    requires DecodeAtStep(net, numBlocks, c, slots, step, maxNew, eos).ok
    ensures Behind(DecodeAtStep(net, numBlocks, c, slots, step, maxNew, eos).slots[i], d, maxNew)
  {
    if slots != [] && step < maxNew && eos != [] && Decodable(c, slots, step).1 != [] {
      SelectionDistinct(c, slots, step);
      var (p, decodable) := Decodable(c, slots, step);
      TakenShape(p, slots, decodable, eos, i);
      hide Decodable, Taken, ForwardActive, DecodeStepOk;
      var (q, taken, active) := Taken(p, slots, decodable, eos);
      if active != [] {
        var next := ForwardActive(net, q, c.kv, taken, active, step, PendingTokens(taken, active)).1;
        AdvancedShape(taken, active, next, i);
      }
    }
  }

  /** The losing branch takes a step of the slots it moves on, and gives them no token for it. */
  lemma LostStep(net: Network, numBlocks: nat, c: Cache, slots: seq<DecodeSlot>, step: nat, maxNew: nat,
                 eos: seq<Token>,
                 i: nat, d: nat)
    requires c.pool.blockSize > 0 && Loses(c, slots, step, maxNew, eos, i) && Behind(slots[i], d, maxNew)
    ensures var r := DecodeAtStep(net, numBlocks, c, slots, step, maxNew, eos);
            && r.slots[i] == slots[i].(decodeStep := slots[i].decodeStep + 1)
            && Behind(r.slots[i], d + 1, maxNew)
  {
    SelectionDistinct(c, slots, step);
    var (p, decodable) := Decodable(c, slots, step);
    assert decodable[0] in decodable;
    AllEnding(p, slots, decodable, eos);
    TakenShape(p, slots, decodable, eos, i);
    hide Decodable, Taken;
    StepEnds(net, numBlocks, c, slots, step, maxNew, eos);
  }

  // ----- who loses in a pass

  /** The `g`-th group moves the client on without a token. */
  ghost predicate LosesInGroup(env: Env, s: Sched, groups: Groups, g: nat, c: nat)
    requires s.cache.pool.blockSize > 0 && g < |groups|
  {
    var (ok, t) := RunGroups(env, s, groups, g);
    ok && GroupOf(t.running, groups[g].0, groups[g].1) && LosesInStep(env, t, groups[g].0, groups[g].1, c)
  }

  ghost predicate LosesInStep(env: Env, s: Sched, step: nat, idxs: seq<nat>, c: nat)
    requires s.cache.pool.blockSize > 0 && GroupOf(s.running, step, idxs)
  {
    exists i: nat :: i < |s.running| && RunsAt(s.running, i, c) && PlaceLoses(env, s, step, idxs, i)
  }

  predicate RunsAt(running: seq<Option<RunningSlot>>, i: nat, c: nat)
    requires i < |running|
  {
    running[i].Some? && running[i].value.clientIndex == c
  }

  /** The pass moves the client on without a token. */
  ghost predicate LosesIn(env: Env, s: Sched, c: nat) {
    s.cache.pool.blockSize > 0 &&
    var s1 := FreeFinished(s, |s.running|);
    exists g: nat :: g < |StepGroups(s1)| && LosesInGroup(env, s1, StepGroups(s1), g, c)
  }

  lemma StepLoser(env: Env, s: Sched, step: nat, idxs: seq<nat>)
    requires s.cache.pool.blockSize > 0 && GroupOf(s.running, step, idxs)
    ensures Bumps(s.cache, BatchOf(s.running, idxs), step, env.maxNew, env.eos) <==>
              exists c: nat :: LosesInStep(env, s, step, idxs, c)
  {
    hide Bumps, Decodable;
    var slots := BatchOf(s.running, idxs);
    if Bumps(s.cache, slots, step, env.maxNew, env.eos) {
      SomebodyLoses(s.cache, slots, step, env.maxNew, env.eos);
      var k: nat :| Loses(s.cache, slots, step, env.maxNew, env.eos, k);
      var i := idxs[k];
      assert PlaceLoses(env, s, step, idxs, i) && RunsAt(s.running, i, s.running[i].value.clientIndex);
      assert LosesInStep(env, s, step, idxs, s.running[i].value.clientIndex);
    }
  }

  /** A pass takes the losing branch exactly when somebody loses in it. */
  lemma PassLoser(env: Env, s: Sched)
    ensures PassBumps(env, s) <==> exists c: nat :: LosesIn(env, s, c)
  {
    if s.cache.pool.blockSize > 0 {
      hide RunGroups, FreeFinished, StepGroups, Bumps, BatchOf, LosesInStep, GroupOf;
      var s1 := FreeFinished(s, |s.running|);
      forall g: nat | g < |StepGroups(s1)|
        ensures BumpsAt(env, s1, StepGroups(s1), g) <==> exists c: nat :: LosesInGroup(env, s1, StepGroups(s1), g, c)
      {
        var (ok, t) := RunGroups(env, s1, StepGroups(s1), g);
        if ok && GroupOf(t.running, StepGroups(s1)[g].0, StepGroups(s1)[g].1) {
          StepLoser(env, t, StepGroups(s1)[g].0, StepGroups(s1)[g].1);
          assert forall c: nat :: LosesInGroup(env, s1, StepGroups(s1), g, c) <==>
            LosesInStep(env, t, StepGroups(s1)[g].0, StepGroups(s1)[g].1, c);
        }
      }
      hide BumpsAt, LosesInGroup;
      if PassBumps(env, s) {
        var g: nat :| g < |StepGroups(s1)| && BumpsAt(env, s1, StepGroups(s1), g);
        var c: nat :| LosesInGroup(env, s1, StepGroups(s1), g, c);
        assert LosesIn(env, s, c);
      }
      if c: nat :| LosesIn(env, s, c) {
        var g: nat :| g < |StepGroups(s1)| && LosesInGroup(env, s1, StepGroups(s1), g, c);
        assert BumpsAt(env, s1, StepGroups(s1), g);
      }
    }
  }

  // ----- the client's account

  /** The client is `d` tokens or more behind its steps, or is done that many tokens below its budget. */
  ghost predicate Trails(env: Env, s: Sched, c: nat, d: nat) {
    && |s.waiting| <= |env.prompts| == |s.outputs| && c < |env.prompts|
    && (forall i: nat :: i < |s.running| && RunsAt(s.running, i, c) ==> Behind(s.running[i].value.slot, d, env.maxNew))
    && (c < Admitted(env, s) && !IsRunning(s.running, c) ==> |s.outputs[c]| + d <= env.maxNew)
    && (c >= Admitted(env, s) ==> d == 0)
  }

  /** The client is on its greedy path, or is done with its greedy output. */
  ghost predicate Right(env: Env, s: Sched, c: nat) {
    && |s.waiting| <= |env.prompts| == |s.outputs| && c < |env.prompts|
    && (forall i: nat :: i < |s.running| && RunsAt(s.running, i, c) ==> PlaceSound(env, s, i))
    && (c < Admitted(env, s) && !IsRunning(s.running, c) ==> s.outputs[c] == Output(env, c))
  }

  lemma RunningIs(running: seq<Option<RunningSlot>>, c: nat)
    ensures IsRunning(running, c) <==> exists i: nat :: i < |running| && RunsAt(running, i, c)
  {
    if IsRunning(running, c) {
      var i: nat :| i < |running| && running[i].Some? && running[i].value.clientIndex == c;
      assert RunsAt(running, i, c);
    }
  }

  // ----- collecting

  lemma FreeStepTrails(env: Env, s: Sched, i: nat, c: nat, d: nat)
    requires i < |s.running| && Trails(env, s, c, d)
    ensures Trails(env, FreeStep(s, i), c, d)
  {
    var s' := FreeStep(s, i);
    assert forall j: nat :: j < |s'.running| && RunsAt(s'.running, j, c) ==> RunsAt(s.running, j, c);
    if s' != s {
      if s.running[i].value.clientIndex == c {
        assert RunsAt(s.running, i, c);
      } else {
        StaysRunning(s, i, c);
      }
    }
  }

  lemma FreeStepRight(env: Env, s: Sched, i: nat, c: nat)
    requires WellFormed(env, s) && i < |s.running| && Right(env, s, c)
    ensures Right(env, FreeStep(s, i), c)
  {
    var s' := FreeStep(s, i);
    assert forall j: nat :: j < |s'.running| && RunsAt(s'.running, j, c) ==> RunsAt(s.running, j, c);
    if s' != s {
      hide Greedy, Cached, GreedyPrefix;
      if s.running[i].value.clientIndex == c {
        assert RunsAt(s.running, i, c);
        GreedyCharacterised(env.net, env.eos, env.prompts[c], env.maxNew, s.running[i].value.slot.generated);
      } else {
        StaysRunning(s, i, c);
      }
      hide Sound;
      forall j: nat | j < |s'.running| && RunsAt(s'.running, j, c)
        ensures PlaceSound(env, s', j)
      {
        ReleasedSound(env, s, i, j);
      }
    }
  }

  /** Freeing an ended sequence touches no other. */
  lemma ReleasedSound(env: Env, s: Sched, i: nat, j: nat)
    requires WellFormed(env, s) && i < |s.running| && FreeStep(s, i) != s && j < |s.running|
    requires FreeStep(s, i).running[j].Some? && PlaceSound(env, s, j)
    ensures PlaceSound(env, FreeStep(s, i), j)
  {
    hide Sound;
    var s', entry := FreeStep(s, i), s.running[j].value;
    SoundFrame(env.net, env.eos, env.maxNew, s.cache.pool, s'.cache.pool, s.cache.kv, env.prompts[entry.clientIndex],
               entry.slot);
  }

  lemma {:induction false} FreeTrails(env: Env, s: Sched, k: nat, c: nat, d: nat)
    requires k <= |s.running| && Trails(env, s, c, d)
    ensures Trails(env, FreeFinished(s, k), c, d)
  {
    hide Trails, FreeStep;
    if k > 0 {
      FreeTrails(env, s, k - 1, c, d);
      FreeStepTrails(env, FreeFinished(s, k - 1), k - 1, c, d);
    }
  }

  lemma {:induction false} FreeRight(env: Env, s: Sched, k: nat, c: nat)
    requires WellFormed(env, s) && k <= |s.running| && Right(env, s, c)
    ensures Right(env, FreeFinished(s, k), c)
  {
    hide Right, FreeStep, WellFormed;
    if k > 0 {
      FreeRight(env, s, k - 1, c);
      FreeFinishedKeeps(env, s, k - 1);
      FreeStepRight(env, FreeFinished(s, k - 1), k - 1, c);
    }
  }

  // ----- spent budgets

  lemma MarkTrails(env: Env, s: Sched, c: nat, d: nat)
    requires Trails(env, s, c, d)
    ensures Trails(env, s.(running := MarkSpent(s.running, env.maxNew)), c, d)
  {
    var t := s.(running := MarkSpent(s.running, env.maxNew));
    assert forall i: nat :: i < |t.running| && RunsAt(t.running, i, c) ==> RunsAt(s.running, i, c);
    SameClients(s.running, t.running);
  }

  lemma MarkRight(env: Env, s: Sched, c: nat)
    requires Right(env, s, c)
    ensures Right(env, s.(running := MarkSpent(s.running, env.maxNew)), c)
  {
    var t := s.(running := MarkSpent(s.running, env.maxNew));
    hide GreedyPrefix, GreedyComplete, Cached, Output;
    SameClients(s.running, t.running);
    forall i: nat | i < |t.running| && RunsAt(t.running, i, c)
      ensures PlaceSound(env, t, i)
    {
      assert RunsAt(s.running, i, c) && PlaceSound(env, s, i);
      if t.running[i] != s.running[i] {
        FinishedSound(env.net, env.eos, env.maxNew, s.cache.pool, s.cache.kv, env.prompts[c], s.running[i].value.slot);
      }
    }
  }

  // ----- groups

  lemma GroupPlaceTrails(env: Env, s: Sched, step: nat, idxs: seq<nat>, i: nat, d: nat)
    requires s.cache.pool.blockSize > 0 && GroupOf(s.running, step, idxs) && GroupStep(env, s, step, idxs).0
    requires i < |s.running| && s.running[i].Some? && Behind(s.running[i].value.slot, d, env.maxNew)
    ensures var t := GroupStep(env, s, step, idxs).1;
            && t.running[i].Some?
            && Behind(t.running[i].value.slot, d + if PlaceLoses(env, s, step, idxs, i) then 1 else 0, env.maxNew)
  {
    hide DecodeAtStep, PutBack, Behind, Loses;
    GroupStepShape(env, s, step, idxs, i);
    if i in idxs {
      var slots := BatchOf(s.running, idxs);
      var d' := DecodeAtStep(env.net, env.numBlocks, s.cache, slots, step, env.maxNew, env.eos);
      var t := GroupStep(env, s, step, idxs).1;
      var k: nat :| k < |idxs| && idxs[k] == i && t.running[i] == Some(s.running[i].value.(slot := d'.slots[k]));
      assert forall j: nat :: j < |idxs| && idxs[j] == i ==> j == k;
      if PlaceLoses(env, s, step, idxs, i) {
        LostStep(env.net, env.numBlocks, s.cache, slots, step, env.maxNew, env.eos, k, d);
      } else {
        StepKeepsBehind(env.net, env.numBlocks, s.cache, slots, step, env.maxNew, env.eos, k, d);
      }
    }
  }

  /** The places are where they were, and hold whom they held. */
  lemma GroupPlaces(env: Env, s: Sched, step: nat, idxs: seq<nat>)
    requires s.cache.pool.blockSize > 0 && GroupOf(s.running, step, idxs)
    ensures var t := GroupStep(env, s, step, idxs).1;
            && t.outputs == s.outputs && t.waiting == s.waiting && |t.running| == |s.running|
            && (forall i: nat, c: nat :: i < |s.running| ==> (RunsAt(s.running, i, c) <==> RunsAt(t.running, i, c)))
            && forall c: nat :: IsRunning(s.running, c) <==> IsRunning(t.running, c)
  {
    var t := GroupStep(env, s, step, idxs).1;
    hide DecodeAtStep, PutBack;
    forall i | 0 <= i < |s.running|
      ensures SamePlace(s.running[i], t.running[i])
    {
      GroupStepAt(env, s, step, idxs, i);
    }
    SameClients(s.running, t.running);
  }

  /** Whoever loses in the group falls one token further behind; nobody catches up. */
  lemma GroupTrails(env: Env, s: Sched, step: nat, idxs: seq<nat>, c: nat, d: nat)
    requires s.cache.pool.blockSize > 0 && WellFormed(env, s) && GroupOf(s.running, step, idxs)
    requires GroupStep(env, s, step, idxs).0
    requires Trails(env, s, c, d)
    ensures Trails(env, GroupStep(env, s, step, idxs).1, c, d + if LosesInStep(env, s, step, idxs, c) then 1 else 0)
  {
    var t := GroupStep(env, s, step, idxs).1;
    GroupPlaces(env, s, step, idxs);
    OnePlaceEach(env, s, c);
    hide GroupStep, Behind, PlaceLoses, WellFormed, GroupOf, ValidCache;
    RunningIs(s.running, c);
    forall i: nat | i < |t.running| && RunsAt(t.running, i, c)
      ensures Behind(t.running[i].value.slot, d + if LosesInStep(env, s, step, idxs, c) then 1 else 0, env.maxNew)
    {
      assert RunsAt(s.running, i, c);
      GroupPlaceTrails(env, s, step, idxs, i, d);
    }
  }

  lemma OnePlaceEach(env: Env, s: Sched, c: nat)
    requires WellFormed(env, s)
    ensures forall i: nat, j: nat ::
              i < |s.running| && j < |s.running| && RunsAt(s.running, i, c) && RunsAt(s.running, j, c) ==> i == j
    ensures |s.waiting| <= |env.prompts| && (IsRunning(s.running, c) ==> c < Admitted(env, s))
  {
    hide ValidCache;
  }

  lemma GroupRight(env: Env, s: Sched, step: nat, idxs: seq<nat>, c: nat)
    requires s.cache.pool.blockSize > 0 && WellFormed(env, s) && GroupOf(s.running, step, idxs)
    requires GroupStep(env, s, step, idxs).0
    requires Right(env, s, c) && !LosesInStep(env, s, step, idxs, c)
    ensures Right(env, GroupStep(env, s, step, idxs).1, c)
  {
    var t := GroupStep(env, s, step, idxs).1;
    GroupPlaces(env, s, step, idxs);
    hide GroupStep, PlaceLoses, PlaceSound, WellFormed, GroupOf, Output;
    forall i: nat | i < |t.running| && RunsAt(t.running, i, c)
      ensures PlaceSound(env, t, i)
    {
      assert RunsAt(s.running, i, c);
      PlaceSoundIff(env, s, step, idxs, i);
    }
  }

  lemma {:induction false} GroupsRight(env: Env, s: Sched, groups: Groups, k: nat, c: nat)
    requires s.cache.pool.blockSize > 0 && WellFormed(env, s) && k <= |groups| && RunGroups(env, s, groups, k).0
    requires Right(env, s, c) && forall g: nat :: g < k ==> !LosesInGroup(env, s, groups, g, c)
    ensures Right(env, RunGroups(env, s, groups, k).1, c)
  {
    hide Right, GroupStep, GroupOf, WellFormed, LosesInStep;
    if k > 0 {
      var (ok, t) := RunGroups(env, s, groups, k - 1);
      GroupsRight(env, s, groups, k - 1, c);
      GroupsWellFormed(env, s, groups, k - 1);
      assert !LosesInGroup(env, s, groups, k - 1, c);
      GroupRight(env, t, groups[k - 1].0, groups[k - 1].1, c);
    }
  }

  /** In how many of the first `k` groups the client loses. */
  ghost function GroupLosses(env: Env, s: Sched, groups: Groups, k: nat, c: nat): nat
    requires s.cache.pool.blockSize > 0 && k <= |groups|
  {
    if k == 0 then 0 else GroupLosses(env, s, groups, k - 1, c) + if LosesInGroup(env, s, groups, k - 1, c) then 1
      else 0
  }

  lemma {:induction false} GroupsTrail(env: Env, s: Sched, groups: Groups, k: nat, c: nat, d: nat)
    requires s.cache.pool.blockSize > 0 && WellFormed(env, s) && k <= |groups| && RunGroups(env, s, groups, k).0
    requires Trails(env, s, c, d)
    ensures Trails(env, RunGroups(env, s, groups, k).1, c, d + GroupLosses(env, s, groups, k, c))
  {
    hide Trails, GroupStep, GroupOf, WellFormed, LosesInStep;
    if k > 0 {
      var (ok, t) := RunGroups(env, s, groups, k - 1);
      GroupsTrail(env, s, groups, k - 1, c, d);
      GroupsWellFormed(env, s, groups, k - 1);
      GroupTrails(env, t, groups[k - 1].0, groups[k - 1].1, c, d + GroupLosses(env, s, groups, k - 1, c));
    }
  }

  lemma {:induction false} SomeGroupLosses(env: Env, s: Sched, groups: Groups, k: nat, c: nat, g: nat)
    requires s.cache.pool.blockSize > 0 && g < k <= |groups| && LosesInGroup(env, s, groups, g, c)
    ensures GroupLosses(env, s, groups, k, c) >= 1
    decreases k
  {
    hide LosesInGroup;
    if g < k - 1 {
      SomeGroupLosses(env, s, groups, k - 1, c, g);
    }
  }

  // ----- passes

  function Count(lost: bool): nat { if lost then 1 else 0 }

  lemma LessTrails(env: Env, s: Sched, c: nat, d: nat, e: nat)
    requires Trails(env, s, c, d) && e <= d
    ensures Trails(env, s, c, e)
  {
  }

  /** The pass up to admission: whoever loses in it falls a token further behind, the others stay right. */
  lemma DecodeTrails(env: Env, s: Sched, c: nat, d: nat)
    requires s.cache.pool.blockSize > 0 && WellFormed(env, s) && DecodePart(env, s).0 && Trails(env, s, c, d)
    ensures Trails(env, DecodePart(env, s).1, c, d + Count(LosesIn(env, s, c)))
  {
    hide Trails, RunGroups, FreeFinished, StepGroups, MarkSpent, WellFormed, GroupLosses, LosesInGroup;
    var s1 := FreeFinished(s, |s.running|);
    var groups := StepGroups(s1);
    FreeTrails(env, s, |s.running|, c, d);
    FreeFinishedKeeps(env, s, |s.running|);
    GroupsTrail(env, s1, groups, |groups|, c, d);
    if LosesIn(env, s, c) {
      var g: nat :| g < |groups| && LosesInGroup(env, s1, groups, g, c);
      SomeGroupLosses(env, s1, groups, |groups|, c, g);
    }
    var s2 := RunGroups(env, s1, groups, |groups|).1;
    LessTrails(env, s2, c, d + GroupLosses(env, s1, groups, |groups|, c), d + Count(LosesIn(env, s, c)));
    MarkTrails(env, s2, c, d + Count(LosesIn(env, s, c)));
    FreeTrails(env, s2.(running := MarkSpent(s2.running, env.maxNew)), |s2.running|, c, d + Count(LosesIn(env, s, c)));
  }

  lemma DecodeRight(env: Env, s: Sched, c: nat)
    requires s.cache.pool.blockSize > 0 && WellFormed(env, s) && DecodePart(env, s).0 && Right(env, s, c)
    requires !LosesIn(env, s, c)
    ensures Right(env, DecodePart(env, s).1, c)
  {
    hide Right, RunGroups, FreeFinished, StepGroups, MarkSpent, WellFormed, LosesInGroup;
    var s1 := FreeFinished(s, |s.running|);
    var groups := StepGroups(s1);
    FreeRight(env, s, |s.running|, c);
    FreeFinishedKeeps(env, s, |s.running|);
    GroupsRight(env, s1, groups, |groups|, c);
    var s2 := RunGroups(env, s1, groups, |groups|).1;
    GroupsWellFormed(env, s1, groups, |groups|);
    MarkRight(env, s2, c);
    MarkSpentKeeps(env, s2);
    FreeRight(env, s2.(running := MarkSpent(s2.running, env.maxNew)), |s2.running|, c);
  }

  lemma AdmitTrails(env: Env, s: Sched, w: nat, s': Sched, c: nat, d: nat)
    requires Admits(env, s, w, s') && Trails(env, s, c, d) && WellFormed(env, s)
    ensures Trails(env, s', c, d)
  {
    var entries :=
      Entries(Admitted(env, s), s.nextId, WaveLens(env, s, w), FirstTokens(env.net, WavePrompts(env, s, w)), env.eos);
    hide Prefilled, PlaceAll, FreePlaces, IsRunning, ValidCache;
    forall i: nat | i < |s'.running| && RunsAt(s'.running, i, c)
      ensures Behind(s'.running[i].value.slot, d, env.maxNew)
    {
      var j := PlacedCase(s.running, entries, i);
      if j == w {
        assert RunsAt(s.running, i, c);
      }
    }
    if IsRunning(s.running, c) || Admitted(env, s) <= c < Admitted(env, s) + w {
      RunsAfter(env, s, w, s', c);
    }
  }

  lemma AdmitRight(env: Env, s: Sched, w: nat, s': Sched, c: nat)
    requires Admits(env, s, w, s') && Right(env, s, c) && WellFormed(env, s)
    ensures Right(env, s', c)
  {
    AdmitWellFormed(env, s, w, s');
    var entries :=
      Entries(Admitted(env, s), s.nextId, WaveLens(env, s, w), FirstTokens(env.net, WavePrompts(env, s, w)), env.eos);
    hide Prefilled, PlaceAll, FreePlaces, IsRunning, Sound, BlockPool.Valid, Output;
    forall i: nat | i < |s'.running| && RunsAt(s'.running, i, c)
      ensures PlaceSound(env, s', i)
    {
      var j := PlacedCase(s.running, entries, i);
      if j < w {
        NewcomerSound(env, s, w, s', j);
      } else {
        assert RunsAt(s.running, i, c);
        ResidentSound(env, s, w, s', i);
      }
    }
    if IsRunning(s.running, c) || Admitted(env, s) <= c < Admitted(env, s) + w {
      RunsAfter(env, s, w, s', c);
    }
  }

  lemma PassTrails(env: Env, s: Sched, s': Sched, c: nat, d: nat)
    requires WellFormed(env, s) && Pass(env, s, s') && Trails(env, s, c, d)
    ensures Trails(env, s', c, d + Count(LosesIn(env, s, c)))
  {
    hide Trails, DecodePart, Admits, Wave, WellFormed, LosesIn;
    DecodeTrails(env, s, c, d);
    PassWellFormed(env, s);
    var t := DecodePart(env, s).1;
    if Wave(env, t) > 0 {
      AdmitTrails(env, t, Wave(env, t), s', c, d + Count(LosesIn(env, s, c)));
    }
  }

  lemma PassRight(env: Env, s: Sched, s': Sched, c: nat)
    requires WellFormed(env, s) && Pass(env, s, s') && Right(env, s, c) && !LosesIn(env, s, c)
    ensures Right(env, s', c)
  {
    hide Right, DecodePart, Admits, Wave, WellFormed, LosesIn;
    DecodeRight(env, s, c);
    PassWellFormed(env, s);
    var t := DecodePart(env, s).1;
    if Wave(env, t) > 0 {
      AdmitRight(env, t, Wave(env, t), s', c);
    }
  }

  // ----- runs

  /** How many passes of the run moved the client on without a token. */
  ghost function Losses(env: Env, trace: seq<Sched>, c: nat): nat {
    if trace == [] then 0 else Losses(env, trace[..|trace| - 1], c) + Count(LosesIn(env, trace[|trace| - 1], c))
  }

  lemma LossesStep(env: Env, trace: seq<Sched>, i: nat, c: nat)
    requires 0 < i <= |trace|
    ensures Losses(env, trace[..i], c) == Losses(env, trace[..i - 1], c) + Count(LosesIn(env, trace[i - 1], c))
  {
    hide LosesIn;
    assert trace[..i][..i - 1] == trace[..i - 1];
  }

  lemma StartsRight(env: Env, cache: Cache, base: nat, c: nat)
    requires c < |env.prompts|
    ensures Right(env, Start(env, cache, base), c) && Trails(env, Start(env, cache, base), c, 0)
  {
    hide Output;
  }

  lemma {:induction false} EveryStateAccount(env: Env, cache: Cache, base: nat, trace: seq<Sched>, i: nat, c: nat)
    requires ValidCache(cache, env.numBlocks) && |env.lens| == |env.prompts| && c < |env.prompts|
    requires i < |trace| && trace[0] == Start(env, cache, base) && BatchRuns.Run(env, trace)
    ensures WellFormed(env, trace[i]) && Trails(env, trace[i], c, Losses(env, trace[..i], c))
    ensures Losses(env, trace[..i], c) == 0 ==> Right(env, trace[i], c)
  {
    hide WellFormed, Trails, Right, Pass, Start, LosesIn, Losses;
    if i == 0 {
      StartIsWellFormed(env, cache, base);
      StartsRight(env, cache, base, c);
      NobodyLostYet(env);
      assert trace[..0] == [];
    } else {
      EveryStateAccount(env, cache, base, trace, i - 1, c);
      assert PassAt(env, trace, i);
      LossesStep(env, trace, i, c);
      PassKeepsForm(env, trace[i - 1], trace[i]);
      PassTrails(env, trace[i - 1], trace[i], c, Losses(env, trace[..i - 1], c));
      if Losses(env, trace[..i], c) == 0 {
        PassRight(env, trace[i - 1], trace[i], c);
      }
    }
  }

  lemma StartIsWellFormed(env: Env, cache: Cache, base: nat)
    requires ValidCache(cache, env.numBlocks) && |env.lens| == |env.prompts|
    ensures WellFormed(env, Start(env, cache, base))
  {
    StartHealthy(env, cache, base);
  }

  /** Every client's own account of a run, whatever was refused to the others: a client the losing branch never
      moved on has its greedy output; every time it was moved on it is one more token short of its budget. For a
      client whose greedy output uses the whole budget its output is right if and only if it never lost. */
  lemma ClientOutcome(env: Env, cache: Cache, base: nat, trace: seq<Sched>, c: nat)
    requires ValidCache(cache, env.numBlocks) && |env.lens| == |env.prompts| && c < |env.prompts|
    requires trace != [] && trace[0] == Start(env, cache, base) && BatchRuns.Run(env, trace)
    requires var last := trace[|trace| - 1]; |last.waiting| <= |env.prompts| && DoneClient(env, last, c)
    ensures |trace[|trace| - 1].outputs| == |env.prompts|
    ensures var output, lost := trace[|trace| - 1].outputs[c], Losses(env, trace[..|trace| - 1], c);
            && (lost == 0 ==> output == Output(env, c))
            && |output| + lost <= env.maxNew
            && (|Output(env, c)| == env.maxNew ==> (output == Output(env, c) <==> lost == 0))
  {
    hide WellFormed, Start, Output, Losses, BatchRuns.Run;
    EveryStateAccount(env, cache, base, trace, |trace| - 1, c);
    NotRunningIs(trace[|trace| - 1].running, c);
  }

  lemma {:induction false} LostOnce(env: Env, trace: seq<Sched>, i: nat, k: nat, c: nat)
    requires i < k <= |trace| && LosesIn(env, trace[i], c)
    ensures Losses(env, trace[..k], c) > 0
    decreases k
  {
    hide LosesIn, Losses;
    LossesStep(env, trace, k, c);
    if i < k - 1 {
      LostOnce(env, trace, i, k - 1, c);
    }
  }

  /** Every client that a pass of a run moves on without a token ends below its budget; if decoding it alone uses the
      whole budget, its output is wrong. And a pass that takes the branch does move somebody on. */
  lemma LosingRunsFallShort(env: Env, cache: Cache, base: nat, trace: seq<Sched>, i: nat)
    requires ValidCache(cache, env.numBlocks) && |env.lens| == |env.prompts|
    requires trace != [] && trace[0] == Start(env, cache, base) && BatchRuns.Run(env, trace)
    requires i < |trace| - 1 && PassBumps(env, trace[i]) && AllDone(trace[|trace| - 1])
    ensures |trace[|trace| - 1].outputs| == |env.prompts|
    ensures exists client: nat :: client < |env.prompts| && LosesIn(env, trace[i], client)
    ensures forall client: nat :: client < |env.prompts| && LosesIn(env, trace[i], client) ==>
              FellShort(env, trace[|trace| - 1], client)
  {
    hide WellFormed, Start, BatchRuns.Run, PassBumps, LosesIn, FellShort, AllDone;
    StartIsWellFormed(env, cache, base);
    EveryStateWellFormed(env, trace, i);
    EveryStateWellFormed(env, trace, |trace| - 1);
    PassLoser(env, trace[i]);
    var loser: nat :| LosesIn(env, trace[i], loser);
    LoserIsClient(env, trace[i], loser);
    forall client: nat | client < |env.prompts| && LosesIn(env, trace[i], client)
      ensures FellShort(env, trace[|trace| - 1], client)
    {
      OneFallsShort(env, cache, base, trace, i, client);
    }
    OutputsOfAll(env, trace[|trace| - 1]);
  }

  /** Done below the budget, and wrong if the greedy output is not. */
  ghost predicate FellShort(env: Env, s: Sched, client: nat) {
    && client < |env.prompts| && client < |s.outputs|
    && |s.outputs[client]| < env.maxNew
    && (|Output(env, client)| == env.maxNew ==> s.outputs[client] != Output(env, client))
  }

  lemma OneFallsShort(env: Env, cache: Cache, base: nat, trace: seq<Sched>, i: nat, client: nat)
    requires ValidCache(cache, env.numBlocks) && |env.lens| == |env.prompts|
    requires trace != [] && trace[0] == Start(env, cache, base) && BatchRuns.Run(env, trace)
    requires i < |trace| - 1 && AllDone(trace[|trace| - 1]) && client < |env.prompts| && LosesIn(env, trace[i], client)
    ensures FellShort(env, trace[|trace| - 1], client)
  {
    hide WellFormed, Start, Output, Losses, BatchRuns.Run, LosesIn, ValidCache;
    LostOnce(env, trace, i, |trace| - 1, client);
    ClientOutcome(env, cache, base, trace, client);
  }

  lemma OutputsOfAll(env: Env, s: Sched)
    requires WellFormed(env, s)
    ensures |s.outputs| == |env.prompts|
  {
    hide ValidCache;
  }

  lemma LoserIsClient(env: Env, s: Sched, c: nat)
    requires WellFormed(env, s) && LosesIn(env, s, c)
    ensures c < |env.prompts|
  {
    hide RunGroups, FreeFinished, StepGroups, WellFormed, LosesInGroup;
    var s1 := FreeFinished(s, |s.running|);
    FreeFinishedKeeps(env, s, |s.running|);
    var g: nat :| g < |StepGroups(s1)| && LosesInGroup(env, s1, StepGroups(s1), g, c);
    GroupsWellFormed(env, s1, StepGroups(s1), g);
    LoserRuns(env, s1, StepGroups(s1), g, c);
  }

  lemma LoserRuns(env: Env, s: Sched, groups: Groups, g: nat, c: nat)
    requires s.cache.pool.blockSize > 0 && g < |groups| && LosesInGroup(env, s, groups, g, c)
    requires WellFormed(env, RunGroups(env, s, groups, g).1)
    ensures c < |env.prompts|
  {
    hide RunGroups, PlaceLoses, ValidCache;
  }

  /** A run has taken the losing branch exactly when some client has lost. */
  lemma {:induction false} SomebodyLost(env: Env, trace: seq<Sched>)
    ensures NoBumps(env, trace) <==> NobodyLost(env, trace)
  {
    hide PassBumps, LosesIn, NoBumps, NobodyLost;
    if trace == [] {
      NobodyLostYet(env);
    } else {
      var rest, last := trace[..|trace| - 1], trace[|trace| - 1];
      SomebodyLost(env, rest);
      PassLoser(env, last);
      NoBumpsLast(env, trace);
      NobodyLostLast(env, trace, rest, last);
    }
  }

  ghost predicate NobodyLost(env: Env, trace: seq<Sched>) {
    forall c: nat :: Losses(env, trace, c) == 0
  }

  lemma NobodyLostLast(env: Env, trace: seq<Sched>, rest: seq<Sched>, last: Sched)
    requires trace == rest + [last]
    ensures NobodyLost(env, trace) <==> NobodyLost(env, rest) && forall c: nat :: !LosesIn(env, last, c)
  {
    hide LosesIn;
    forall c: nat
      ensures Losses(env, trace, c) == Losses(env, rest, c) + Count(LosesIn(env, last, c))
    {
      assert trace[..|rest|] == rest;
    }
    if NobodyLost(env, trace) {
      forall c: nat
        ensures Losses(env, rest, c) == 0 && !LosesIn(env, last, c)
      {
        assert Losses(env, trace, c) == 0;
      }
    }
  }

  lemma NobodyLostYet(env: Env)
    ensures NoBumps(env, []) && NobodyLost(env, []) && forall c: nat :: Losses(env, [], c) == 0
  {
  }

  lemma NoBumpsLast(env: Env, trace: seq<Sched>)
    requires trace != []
    ensures NoBumps(env, trace) <==> NoBumps(env, trace[..|trace| - 1]) && !PassBumps(env, trace[|trace| - 1])
  {
    hide PassBumps;
    var rest := trace[..|trace| - 1];
    assert trace == rest + [trace[|trace| - 1]];
    if !NoBumps(env, rest) {
      var i :| 0 <= i < |rest| && PassBumps(env, rest[i]);
      assert PassBumps(env, trace[i]);
    }
  }
}
