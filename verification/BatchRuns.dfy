/** Whole runs of the continuous scheduler: sequences of passes from the initial schedule, and what
    holds in every one of them. */
module BatchRuns {
  import opened Prelude
  import opened Decoding
  import opened BlockPool
  import opened PagedCacheRuntime
  import opened DecodeStep
  import opened PagedBatchPrefill
  import opened ContinuousBatch
  import opened DecodePass
  import opened SchedulerPass
  import opened PassProgress
  import opened Admission

  /** One iteration of the scheduler's loop, from schedule to schedule. */
  ghost predicate Pass(env: Env, s: Sched, s': Sched) {
    && Queued(env, s)
    && var (ok, t) := DecodePart(env, s);
    && ok
    && Queued(env, t)
    && if Wave(env, t) == 0 then s' == t else Admits(env, t, Wave(env, t), s')
  }

  /** Nobody has been admitted; every client waits. */
  function Start(env: Env, c: Cache, nextId: nat): Sched {
    Sched(c, seq(|env.prompts|, i requires 0 <= i => i), seq(env.maxSlots, _ => None), seq(|env.prompts|, _ => []),
          nextId)
  }

  ghost predicate PassAt(env: Env, trace: seq<Sched>, i: nat)
    requires 0 < i < |trace|
  {
    Pass(env, trace[i - 1], trace[i])
  }

  ghost predicate Run(env: Env, trace: seq<Sched>) {
    forall i :: 0 < i < |trace| ==> PassAt(env, trace, i)
  }

  /** Clients neither waiting nor running are done. */
  predicate AllDone(s: Sched) {
    s.waiting == [] && forall i :: 0 <= i < |s.running| ==> s.running[i].None?
  }

  /** No pass of the run takes the losing branch. */
  ghost predicate NoBumps(env: Env, trace: seq<Sched>) {
    forall i :: 0 <= i < |trace| ==> !PassBumps(env, trace[i])
  }

  lemma StartHealthy(env: Env, c: Cache, nextId: nat)
    requires ValidCache(c, env.numBlocks) && |env.lens| == |env.prompts|
    ensures Healthy(env, Start(env, c, nextId))
  {
  }

  lemma PassKeepsForm(env: Env, s: Sched, s': Sched)
    requires WellFormed(env, s) && Pass(env, s, s')
    ensures WellFormed(env, s')
  {
    hide WellFormed, DecodePart, Admits;
    PassWellFormed(env, s);
    var t := DecodePart(env, s).1;
    if Wave(env, t) > 0 {
      AdmitWellFormed(env, t, Wave(env, t), s');
    }
  }

  lemma PassKeepsHealth(env: Env, s: Sched, s': Sched)
    requires Healthy(env, s) && env.eos != [] && Pass(env, s, s') && !PassBumps(env, s)
    ensures Healthy(env, s')
  {
    hide Healthy, DecodePart, Admits, PassBumps;
    PassHealthy(env, s);
    var t := DecodePart(env, s).1;
    if Wave(env, t) > 0 {
      AdmitHealthy(env, t, Wave(env, t), s');
    }
  }

  /** In every state of every run the blocks are partitioned, the queue is intact, and no client or
      request runs twice, whatever was refused on the way. */
  lemma {:induction false} EveryStateWellFormed(env: Env, trace: seq<Sched>, i: nat)
    requires i < |trace| && WellFormed(env, trace[0]) && Run(env, trace)
    ensures WellFormed(env, trace[i])
  {
    hide WellFormed, Pass;
    if i > 0 {
      EveryStateWellFormed(env, trace, i - 1);
      assert PassAt(env, trace, i);
      PassKeepsForm(env, trace[i - 1], trace[i]);
    }
  }

  lemma {:induction false} EveryStateHealthy(env: Env, trace: seq<Sched>, i: nat)
    requires i < |trace| && Healthy(env, trace[0]) && env.eos != []
    requires Run(env, trace) && NoBumps(env, trace[..i])
    ensures Healthy(env, trace[i])
  {
    hide Healthy, PassBumps, Pass;
    if i > 0 {
      assert forall j :: 0 <= j < i - 1 ==> trace[..i - 1][j] == trace[..i][j];
      EveryStateHealthy(env, trace, i - 1);
      assert trace[..i][i - 1] == trace[i - 1];
      assert PassAt(env, trace, i);
      PassKeepsHealth(env, trace[i - 1], trace[i]);
    }
  }

  /** Paging, batching, block reuse and admission order are invisible: a run that ends without having
      taken the losing branch gives every client the tokens of decoding its prompt alone. */
  lemma RunsAreGreedy(env: Env, trace: seq<Sched>, c: nat)
    requires Run(env, trace) && trace != [] && Healthy(env, trace[0]) && env.eos != []
    requires NoBumps(env, trace[..|trace| - 1])
    requires AllDone(trace[|trace| - 1]) && c < |env.prompts|
    ensures |trace[|trace| - 1].outputs| == |env.prompts|
    ensures trace[|trace| - 1].outputs[c] == Greedy(env.net, env.eos, env.prompts[c], env.maxNew)
  {
    EveryStateHealthy(env, trace, |trace| - 1);
  }

  // ----- clients that are done stay done

  predicate NotRunning(running: seq<Option<RunningSlot>>, c: nat) {
    forall i :: 0 <= i < |running| && running[i].Some? ==> running[i].value.clientIndex != c
  }

  predicate DoneClient(env: Env, s: Sched, c: nat)
    requires |s.waiting| <= |env.prompts|
  {
    c < Admitted(env, s) && NotRunning(s.running, c)
  }

  lemma {:induction false} FreeKeepsOutput(env: Env, s: Sched, k: nat, c: nat)
    requires k <= |s.running| && NotRunning(s.running, c)
    ensures c < |s.outputs| == |FreeFinished(s, k).outputs| ==> FreeFinished(s, k).outputs[c] == s.outputs[c]
    ensures |FreeFinished(s, k).outputs| == |s.outputs|
    ensures NotRunning(FreeFinished(s, k).running, c)
  {
    if k > 0 {
      FreeKeepsOutput(env, s, k - 1, c);
    }
  }

  lemma GroupsKeepClients(env: Env, s: Sched, groups: Groups, k: nat, c: nat)
    requires s.cache.pool.blockSize > 0 && k <= |groups|
    requires NotRunning(s.running, c)
    ensures NotRunning(RunGroups(env, s, groups, k).1.running, c)
  {
    hide RunGroups;
    var t := RunGroups(env, s, groups, k).1;
    forall i | 0 <= i < |t.running| && t.running[i].Some?
      ensures t.running[i].value.clientIndex != c
    {
      GroupsAt(env, s, groups, k, i);
    }
  }

  lemma MarkKeepsClients(running: seq<Option<RunningSlot>>, maxNew: nat, c: nat)
    requires NotRunning(running, c)
    ensures NotRunning(MarkSpent(running, maxNew), c)
  {
    forall i | 0 <= i < |running|
      ensures MarkSpent(running, maxNew)[i].Some? ==>
                running[i].Some? && MarkSpent(running, maxNew)[i].value.clientIndex == running[i].value.clientIndex
    {
    }
  }

  lemma DecodeKeepsDone(env: Env, s: Sched, c: nat)
    requires Queued(env, s) && DoneClient(env, s, c) && c < |s.outputs| && DecodePart(env, s).0
    ensures var t := DecodePart(env, s).1;
            && t.waiting == s.waiting && DoneClient(env, t, c)
            && |t.outputs| == |s.outputs| && t.outputs[c] == s.outputs[c]
  {
    FreeKeepsOutput(env, s, |s.running|, c);
    var s1 := FreeFinished(s, |s.running|);
    GroupsKeepClients(env, s1, StepGroups(s1), |StepGroups(s1)|, c);
    var s2 := RunGroups(env, s1, StepGroups(s1), |StepGroups(s1)|).1;
    hide RunGroups, StepGroups, NotRunning, FreeFinished, MarkSpent;
    var s3 := s2.(running := MarkSpent(s2.running, env.maxNew));
    MarkKeepsClients(s2.running, env.maxNew, c);
    FreeKeepsOutput(env, s3, |s3.running|, c);
    FreeKeepsQueue(s, |s.running|);
    FreeKeepsQueue(s3, |s3.running|);
  }

  /** The client is done with this output. */
  ghost predicate DoneWith(env: Env, s: Sched, c: nat, output: seq<Token>) {
    |s.waiting| <= |env.prompts| && DoneClient(env, s, c) && c < |s.outputs| && s.outputs[c] == output
  }

  lemma PassKeepsDone(env: Env, s: Sched, s': Sched, c: nat, output: seq<Token>)
    requires Pass(env, s, s') && DoneWith(env, s, c, output)
    ensures DoneWith(env, s', c, output)
  {
    DecodeKeepsDone(env, s, c);
    hide DecodePart, Prefilled, PlaceAll, FreePlaces, Admits;
    var t := DecodePart(env, s).1;
    if Wave(env, t) > 0 {
      WaveKeepsDone(env, t, Wave(env, t), s', c);
    }
  }

  lemma WaveKeepsDone(env: Env, t: Sched, w: nat, s': Sched, c: nat)
    requires Admits(env, t, w, s') && DoneClient(env, t, c)
    ensures |s'.waiting| <= |env.prompts| && DoneClient(env, s', c) && s'.outputs == t.outputs
  {
    hide Prefilled, PlaceAll, FreePlaces;
    var entries :=
      Entries(Admitted(env, t), t.nextId, WaveLens(env, t, w), FirstTokens(env.net, WavePrompts(env, t, w)), env.eos);
    forall i | 0 <= i < |s'.running| && s'.running[i].Some?
      ensures s'.running[i].value.clientIndex != c
    {
      var j := PlacedCase(t.running, entries, i);
    }
  }

  /** A client that is done is never queued or run again, and its output never changes, in any run. */
  lemma {:induction false} DoneIsFinal(env: Env, trace: seq<Sched>, i: nat, j: nat, c: nat, output: seq<Token>)
    requires Run(env, trace) && i <= j < |trace| && DoneWith(env, trace[i], c, output)
    ensures DoneWith(env, trace[j], c, output)
    decreases j
  {
    hide Pass, DoneWith;
    if i < j {
      DoneIsFinal(env, trace, i, j - 1, c, output);
      assert PassAt(env, trace, j);
      PassKeepsDone(env, trace[j - 1], trace[j], c, output);
    }
  }

  // ----- progress

  /** What the scheduler repeats for ever once it gets there: everybody running is starved, and nobody
      can be admitted. */
  ghost predicate Livelock(env: Env, s: Sched) {
    && Queued(env, s)
    && Starved(s)
    && Wave(env, s) == 0
    && exists i :: 0 <= i < |s.running| && s.running[i].Some?
  }

  lemma {:induction false} PlacedLoad(env: Env, running: seq<Option<RunningSlot>>, places: seq<nat>,
                                      entries: seq<RunningSlot>, k: nat)
    requires k <= |entries| <= |places| && Indexes(places, |running|) && NoDup(places)
    requires forall j :: 0 <= j < |places| ==> running[places[j]].None?
    requires forall j :: 0 <= j < |entries| ==> entries[j].slot.decodeStep == 0
    ensures Load(PlaceAll(running, places, entries, k), env.maxNew) <= Load(running, env.maxNew) + k * (env.maxNew + 2)
  {
    if k > 0 {
      PlacedLoad(env, running, places, entries, k - 1);
      PlacedAt(running, places, entries, k - 1);
      assert places[k - 1] !in places[..k - 1];
      LoadUpdate(PlaceAll(running, places, entries, k - 1), places[k - 1], Some(entries[k - 1]), env.maxNew);
      assert k * (env.maxNew + 2) == (k - 1) * (env.maxNew + 2) + env.maxNew + 2;
    }
  }

  lemma {:induction false} LoadUpdate(running: seq<Option<RunningSlot>>, i: nat, o: Option<RunningSlot>, maxNew: nat)
    requires i < |running|
    ensures Load(running[i := o], maxNew) == Load(running, maxNew) - LoadAt(running[i], maxNew) + LoadAt(o, maxNew)
  {
    var k := |running| - 1;
    if i < k {
      LoadUpdate(running[..k], i, o, maxNew);
      assert running[i := o][..k] == running[..k][i := o];
    } else {
      assert running[i := o][..k] == running[..k];
    }
  }

  lemma AdmitMeasure(env: Env, s: Sched, w: nat, s': Sched)
    requires Admits(env, s, w, s') && w > 0
    ensures Measure(s'.waiting, s'.running, env.maxNew) < Measure(s.waiting, s.running, env.maxNew)
  {
    var places := FreePlaces(s.running, |s.running|);
    var entries :=
      Entries(Admitted(env, s), s.nextId, WaveLens(env, s, w), FirstTokens(env.net, WavePrompts(env, s, w)), env.eos);
    hide FreePlaces, PlaceAll, Prefilled, Load;
    PlacesEmpty(s.running);
    PlacedLoad(env, s.running, places, entries, w);
    WaitingPays(|s.waiting|, w, env.maxNew);
  }

  lemma WaitingPays(n: nat, w: nat, maxNew: nat)
    requires w <= n
    ensures n * (maxNew + 3) == (n - w) * (maxNew + 3) + w * (maxNew + 2) + w
  {
  }

  lemma AdmitStepsBelow(env: Env, s: Sched, w: nat, s': Sched)
    requires Admits(env, s, w, s') && StepsBelow(env, s) && env.maxNew > 0
    ensures StepsBelow(env, s')
  {
    var entries :=
      Entries(Admitted(env, s), s.nextId, WaveLens(env, s, w), FirstTokens(env.net, WavePrompts(env, s, w)), env.eos);
    hide PlaceAll, FreePlaces, Prefilled;
    forall i | 0 <= i < |s'.running| && s'.running[i].Some? && !s'.running[i].value.slot.finished
      ensures s'.running[i].value.slot.decodeStep < env.maxNew
    {
      var j := PlacedCase(s.running, entries, i);
    }
  }

  /** Every pass either comes closer to the end or changes nothing; it changes nothing exactly when all
      running sequences are starved and nobody is admitted. */
  lemma PassMeasure(env: Env, s: Sched, s': Sched)
    requires Pass(env, s, s') && StepsBelow(env, s) && env.eos != [] && env.maxNew > 0
    ensures StepsBelow(env, s')
    ensures s' == s <==> Starved(s) && Wave(env, s) == 0
    ensures s' != s ==> Measure(s'.waiting, s'.running, env.maxNew) < Measure(s.waiting, s.running, env.maxNew)
  {
    PassStill(env, s);
    PassStepsBelow(env, s);
    DecodeKeepsQueue(env, s);
    var t := DecodePart(env, s).1;
    hide DecodePart, Starved, Load, Admits;
    if Wave(env, t) > 0 {
      AdmitMeasure(env, t, Wave(env, t), s');
      AdmitStepsBelow(env, t, Wave(env, t), s');
    }
  }

  lemma DecodeKeepsQueue(env: Env, s: Sched)
    requires s.cache.pool.blockSize > 0
    ensures DecodePart(env, s).1.waiting == s.waiting && DecodePart(env, s).1.nextId == s.nextId
  {
    var s1 := FreeFinished(s, |s.running|);
    var (ok, s2) := RunGroups(env, s1, StepGroups(s1), |StepGroups(s1)|);
    hide RunGroups, StepGroups;
    FreeKeepsQueue(s, |s.running|);
    if ok {
      var s3 := s2.(running := MarkSpent(s2.running, env.maxNew));
      FreeKeepsQueue(s3, |s3.running|);
    }
  }

  /** A livelocked schedule is its own successor, and has no other. */
  lemma LivelockForever(env: Env, s: Sched, s': Sched)
    requires StepsBelow(env, s) && env.eos != [] && env.maxNew > 0 && Livelock(env, s)
    ensures Pass(env, s, s') <==> s' == s
  {
    PassStill(env, s);
  }
}
