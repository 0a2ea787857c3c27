/** The static engine: one batch, all rows in step, run to the end. It refines greedy decoding too, so
    the two engines agree. */
module StaticBatch {
  import opened Prelude
  import opened Decoding
  import opened BlockPool
  import opened SlotMapping
  import opened PagedKvCache
  import opened PagedCacheRuntime
  import opened DecodeStep
  import opened DecodeSoundness
  import opened PrefillInput
  import opened PagedBatchPrefill
  import opened CapacityBounds
  import opened StaticCapacity

  /** Every unfinished row has generated one token per step. */
  ghost predicate InStep(state: PagedBatchState)
    requires state.Valid()
    reads state
  {
    forall i :: 0 <= i < |state.finished| && !state.finished[i] ==> |state.generated[i]| == state.decodeStep
  }

  method AllFinished(state: PagedBatchState) returns (all: bool)
    ensures all <==> forall i :: 0 <= i < |state.finished| ==> state.finished[i]
  {
    for i := 0 to |state.finished|
      invariant forall k :: 0 <= k < i ==> state.finished[k]
    {
      if !state.finished[i] {
        return false;
      }
    }
    all := true;
  }

  method ActiveIndices(state: PagedBatchState) returns (sel: seq<nat>)
    requires state.Valid()
    ensures sel == Forward(state.Slots(), state.decodeStep, |state.requestIds|)
  {
    sel := [];
    for i := 0 to |state.requestIds|
      invariant sel == Forward(state.Slots(), state.decodeStep, i)
    {
      if !state.finished[i] {
        sel := sel + [i];
      }
    }
  }

  /** Unlike the continuous engine, the first refused allocation is an error. */
  method GrowRows(rt: PagedCacheRuntime, ids: seq<nat>, tokens: seq<nat>, sel: seq<nat>, ghost slots: seq<DecodeSlot>)
    returns (r: Outcome<()>)
    requires rt.Valid() && Indexes(sel, |slots|) && |ids| == |tokens| == |sel|
    requires forall k :: 0 <= k < |sel| ==> ids[k] == slots[sel[k]].requestId && tokens[k] == TokensAfter(slots[sel[k]])
    modifies rt.manager
    ensures rt.Valid()
    ensures r.Ok? ==> GrowSelected(old(rt.manager.View()), slots, sel, |sel|) == (rt.manager.View(), sel)
    ensures AllFit(old(rt.manager.View()), slots, sel) ==> r.Ok?
  {
    hide Grow, Fits, BlockPool.Valid, GrowSelected, TokensAfter;
    PoolPositive(rt);
    ghost var p := rt.manager.View();
    NobodyGrown(p, slots, sel);
    for k := 0 to |sel|
      invariant rt.Valid() && GrowSelected(p, slots, sel, k) == (rt.manager.View(), sel[..k])
    {
      GrowValid(rt.manager.View(), ids[k], tokens[k], rt.cache.numBlocks);
      GrowNext(p, slots, sel, k);
      assert AllFit(p, slots, sel) ==> Granted(p, slots, sel, k);
      var ok := rt.manager.AllocateSlots(ids[k], tokens[k]);
      if ok.Err? {
        return Err(ok.error);
      }
      assert sel[..k + 1] == sel[..k] + [sel[k]];
    }
    assert sel[..|sel|] == sel;
    r := Ok(());
  }

  lemma PoolPositive(rt: PagedCacheRuntime)
    requires rt.Valid()
    ensures rt.manager.blockSize > 0
  {
  }

  method GrowActive(rt: PagedCacheRuntime, state: PagedBatchState, sel: seq<nat>) returns (r: Outcome<()>)
    requires rt.Valid() && state.Valid() && Indexes(sel, |state.requestIds|)
    requires forall k :: 0 <= k < |sel| ==> |state.generated[sel[k]]| == state.decodeStep
    modifies rt.manager
    ensures rt.Valid()
    ensures r.Ok? ==> GrowSelected(old(rt.manager.View()), state.Slots(), sel, |sel|) == (rt.manager.View(), sel)
    ensures AllFit(old(rt.manager.View()), state.Slots(), sel) ==> r.Ok?
  {
    hide BlockPool.Valid, GrowSelected, AllFit;
    var ids: seq<nat> :=
      seq(|sel|, k requires 0 <= k < |sel| && Indexes(sel, |state.requestIds|) =>
        state.requestIds[sel[k]]);
    var tokens: seq<nat> :=
      seq(|sel|, k requires 0 <= k < |sel| && Indexes(sel, |state.promptLens|) reads state =>
        state.promptLens[sel[k]] + state.decodeStep + 1);
    r := GrowRows(rt, ids, tokens, sel, state.Slots());
  }

  /** Finish the rows whose next token is an end token; append the token of the others. */
  method TakeNextTokens(rt: PagedCacheRuntime, state: PagedBatchState, sel: seq<nat>) returns (active: seq<nat>)
    requires rt.manager.blockSize > 0 && state.Valid() && Indexes(sel, |state.requestIds|) && NoDup(sel)
    requires forall k :: 0 <= k < |sel| ==> |state.generated[sel[k]]| == state.decodeStep && !state.finished[sel[k]]
    modifies rt.manager, state`generated, state`finished
    ensures state.Valid()
    ensures (rt.manager.View(), state.Slots(), active) ==
              Taken(old(rt.manager.View()), old(state.Slots()), sel, state.eos)
  {
    hide Trim;
    active := [];
    ghost var p, before := rt.manager.View(), state.Slots();
    for k := 0 to |sel|
      invariant state.Valid()
      invariant (rt.manager.View(), state.Slots(), active) == TakeTokens(p, before, sel, state.eos, k)
      invariant forall j :: k <= j < |sel| ==> |state.generated[sel[j]]| == state.decodeStep && !state.finished[sel[j]]
    {
      var i := sel[k];
      var tok := state.nextIds[i];
      ghost var slots := state.Slots();
      assert forall j :: k < j < |sel| ==> sel[j] != i;
      if tok in state.eos {
        state.finished := state.finished[i := true];
        rt.manager.TrimRequestToNumTokens(state.requestIds[i], state.promptLens[i] + |state.generated[i]|);
        assert state.Slots() == slots[i := slots[i].(finished := true)];
      } else {
        state.generated := state.generated[i := state.generated[i] + [tok]];
        active := active + [i];
        assert state.Slots() == slots[i := slots[i].(generated := slots[i].generated + [tok])];
      }
    }
  }

  /** The forward pass over the rows still active: the finished ones are compacted out. */
  method ForwardRows(net: Network, rt: PagedCacheRuntime, state: PagedBatchState, active: seq<nat>,
                     ghost pending: seq<Token>)
    returns (r: Outcome<seq<Token>>)
    requires rt.Valid() && state.Valid() && Indexes(active, |state.requestIds|) && active != [] && |pending| == |active|
    requires forall k ::
              0 <= k < |active| ==>
                state.blockTables[active[k]] == Table(rt.manager.View(), state.requestIds[active[k]])
    requires forall k :: 0 <= k < |active| ==> var g := state.generated[active[k]]; g != [] && g[|g| - 1] == pending[k]
    modifies rt.cache
    ensures r.Ok? <==>
              DecodeStepOk(Tables(rt.manager.View(), Ids(state.Slots(), active)), PromptLens(state.Slots(), active),
                           rt.manager.blockSize, rt.cache.numBlocks, state.decodeStep)
    ensures r.Ok? ==>
              (rt.cache.kv, r.value) ==
                ForwardActive(net, rt.manager.View(), old(rt.cache.kv), state.Slots(), active, state.decodeStep,
                              pending)
    ensures |rt.cache.kv| == |old(rt.cache.kv)|
  {
    assert rt.manager.blockSize > 0;
    hide WriteRows, Read, DecodeStepOk, DecodeBatchOk, BlockPool.Valid;
    var tokensIn: seq<Token> :=
      seq(|active|, k
        requires 0 <= k < |active| && Indexes(active, |state.generated|) && state.generated[active[k]] != []
        reads state =>
        state.generated[active[k]][|state.generated[active[k]]| - 1]);
    var promptLens: seq<nat> :=
      seq(|active|, k requires 0 <= k < |active| && Indexes(active, |state.promptLens|) =>
        state.promptLens[active[k]]);
    var tables: seq<seq<nat>> :=
      seq(|active|, k requires 0 <= k < |active| && Indexes(active, |state.blockTables|) reads state =>
        state.blockTables[active[k]]);
    assert tables == Tables(rt.manager.View(), Ids(state.Slots(), active)) &&
      promptLens == PromptLens(state.Slots(), active) && tokensIn == pending;
    MetadataExact(rt, Ids(state.Slots(), active), promptLens, state.decodeStep);
    var metadata := rt.cache.DecodeMetadataForBatchStep(tables, promptLens, state.decodeStep);
    if metadata.Err? {
      return Err(metadata.error);
    }
    var m := metadata.value;
    rt.cache.kv :=
      WriteRows(net, rt.cache.kv, rt.manager.blockSize, DecodeRows(m, promptLens, state.decodeStep, tokensIn),
                |active|);
    r := Ok(NextIds(net, rt.cache.kv, rt.manager.blockSize, m));
  }

  /** The builder makes every earlier step's metadata too; that never fails when the last one succeeds. */
  lemma MetadataExact(rt: PagedCacheRuntime, ids: seq<nat>, promptLens: seq<nat>, step: nat)
    requires rt.Valid() && ids != [] && |promptLens| == |ids|
    ensures rt.manager.blockSize > 0
    ensures (DecodeBatchOk(Tables(rt.manager.View(), ids), promptLens) && forall k :: 0 <= k <= step ==>
             DecodeStepOk(Tables(rt.manager.View(), ids), promptLens, rt.manager.blockSize, rt.cache.numBlocks, k))
       <==> DecodeStepOk(Tables(rt.manager.View(), ids), promptLens, rt.manager.blockSize, rt.cache.numBlocks, step)
  {
    hide DecodeStepOk;
    var p := rt.manager.View();
    forall k | 0 <= k < |ids|
      ensures InPool(Tables(p, ids)[k], rt.cache.numBlocks)
    {
      TableInPool(p, ids[k], rt.cache.numBlocks);
    }
    EarlierStepsSucceed(Tables(p, ids), promptLens, rt.manager.blockSize, rt.cache.numBlocks, step);
  }

  /** Store the choices of the active rows; the step counts on for all. */
  method AdvanceRows(state: PagedBatchState, active: seq<nat>, next: seq<Token>)
    requires state.Valid() && |active| == |next| && Indexes(active, |state.requestIds|) && NoDup(active)
    requires forall i: nat :: i < |state.requestIds| ==> (i in active <==> !state.finished[i])
    modifies state`nextIds, state`decodeStep
    ensures state.Valid() && state.decodeStep == old(state.decodeStep) + 1
    ensures state.Slots() == Advance(old(state.Slots()), active, next, |active|)
  {
    ghost var before, ids := state.Slots(), state.nextIds;
    for k := 0 to |active|
      invariant state.Valid() && state.decodeStep == old(state.decodeStep)
      invariant forall i: nat :: i < |ids| && i !in active ==> state.nextIds[i] == ids[i]
      invariant forall r :: 0 <= r < k ==> state.nextIds[active[r]] == next[r]
    {
      assert forall r :: 0 <= r < k ==> active[r] != active[k];
      state.nextIds := state.nextIds[active[k] := next[k]];
    }
    state.decodeStep := state.decodeStep + 1;
    AdvanceSlots(before, active, next, |active|);
    assert active[..|active|] == active;
    forall i: nat | i < |ids|
      ensures state.Slot(i) == Advance(before, active, next, |active|)[i]
    {
      if i in active {
        var r :| 0 <= r < |active| && active[r] == i;
      }
    }
  }

  /** The tables read before the end tokens are trimmed are still right for the rows that go on. */
  lemma TablesStillRight(p: Pool, numBlocks: nat, slots: seq<DecodeSlot>, sel: seq<nat>, eos: seq<Token>, i: nat)
    requires Valid(p, numBlocks) && Indexes(sel, |slots|) && NoDup(sel) && DistinctIds(slots)
    requires i in Taken(p, slots, sel, eos).2
    ensures i < |slots| && Table(Taken(p, slots, sel, eos).0, slots[i].requestId) == Table(p, slots[i].requestId)
    ensures Taken(p, slots, sel, eos).1[i] == slots[i].(generated := slots[i].generated + [slots[i].nextId])
  {
    hide TakeTokens;
    TakenShape(p, slots, sel, eos, i);
    TakeTokensTables(p, slots, sel, eos, |sel|, numBlocks);
    forall j | 0 <= j < |sel| && slots[sel[j]].nextId in eos
      ensures slots[sel[j]].requestId != slots[i].requestId
    {
      assert sel[j] in sel;
      assert sel[j] < i || i < sel[j];
    }
  }

  /** After taking, the unfinished rows are the active ones. */
  lemma UnfinishedAreActive(c: Cache, slots: seq<DecodeSlot>, step: nat, eos: seq<Token>, sel: seq<nat>, i: nat)
    requires c.pool.blockSize > 0 && sel == Forward(slots, step, |slots|) && i < |slots|
    requires forall j :: 0 <= j < |slots| && !slots[j].finished ==> slots[j].decodeStep == step
    requires Decodable(c, slots, step).1 == sel
    ensures Indexes(sel, |slots|) && NoDup(sel)
    ensures var (_, taken, active) := Taken(Decodable(c, slots, step).0, slots, sel, eos);
            NoDup(active) && (i in active <==> !taken[i].finished)
  {
    ForwardIsSelection(slots, step, |slots|);
    TakenShape(Decodable(c, slots, step).0, slots, sel, eos, i);
  }

  /** The rows that await the forward pass, as the forward pass needs them. */
  ghost predicate RowsPending(state: PagedBatchState, p: Pool, active: seq<nat>)
    requires state.Valid()
    reads state
  {
    && Indexes(active, |state.requestIds|) && NoDup(active)
    && (forall i: nat :: i < |state.requestIds| ==> (i in active <==> !state.finished[i]))
    && (forall k :: 0 <= k < |active| ==> state.blockTables[active[k]] == Table(p, state.requestIds[active[k]]))
    && (forall k :: 0 <= k < |active| ==>
        var g := state.generated[active[k]]; g != [] && g[|g| - 1] == state.nextIds[active[k]])
  }

  /** Read the tables, then take the next tokens. */
  method TakeWithTables(rt: PagedCacheRuntime, state: PagedBatchState, sel: seq<nat>, ghost c: Cache)
    returns (r: Outcome<seq<nat>>)
    requires rt.Valid() && state.Valid() && InStep(state) && NoDup(state.requestIds)
    requires c.pool.blockSize > 0 && sel == Forward(state.Slots(), state.decodeStep, |state.requestIds|)
    requires Decodable(c, state.Slots(), state.decodeStep) == (rt.manager.View(), sel)
    modifies rt.manager, state`blockTables, state`generated, state`finished
    ensures rt.Valid() && state.Valid()
    ensures r.Ok? ==>
              (rt.manager.View(), state.Slots(), r.value) ==
                Taken(old(rt.manager.View()), old(state.Slots()), sel, state.eos)
    ensures r.Ok? ==> RowsPending(state, rt.manager.View(), r.value)
    ensures old(Known(rt.manager.View(), state.requestIds)) ==> r.Ok?
  {
    ghost var p, slots := rt.manager.View(), state.Slots();
    assert rt.manager.blockSize > 0;
    SelectedInStep(state, sel);
    var tables := rt.manager.BlockTablesFor(state.requestIds);
    if tables.Err? {
      return Err(tables.error);
    }
    state.blockTables := tables.value;
    assert state.Slots() == slots;
    hide BlockPool.Valid, TakeTokens, Decodable, Forward;
    var active := TakeNextTokens(rt, state, sel);
    TakeTokensTables(p, slots, sel, state.eos, |sel|, rt.cache.numBlocks);
    PendingRows(state, p, rt.cache.numBlocks, c, slots, sel, active, rt.manager.View());
    r := Ok(active);
  }

  lemma PendingRows(state: PagedBatchState, p: Pool, numBlocks: nat, c: Cache, slots: seq<DecodeSlot>, sel: seq<nat>,
                    active: seq<nat>, q: Pool)
    requires state.Valid() && Valid(p, numBlocks) && c.pool.blockSize > 0 && NoDup(state.requestIds)
    requires |slots| == |state.requestIds| && forall i :: 0 <= i < |slots| ==> slots[i].requestId == state.requestIds[i]
    requires forall i :: 0 <= i < |slots| && !slots[i].finished ==> slots[i].decodeStep == state.decodeStep
    requires sel == Forward(slots, state.decodeStep, |slots|) && Decodable(c, slots, state.decodeStep) == (p, sel)
    requires Indexes(sel, |slots|) && NoDup(sel) && (q, state.Slots(), active) == Taken(p, slots, sel, state.eos)
    requires state.blockTables == Tables(p, state.requestIds)
    ensures RowsPending(state, q, active)
  {
    hide Taken, Decodable, Forward, BlockPool.Valid, Tables, Table;
    DistinctSlots(state, slots);
    if slots != [] {
      UnfinishedAreActive(c, slots, state.decodeStep, state.eos, sel, 0);
    }
    forall i: nat | i < |slots|
      ensures i in active <==> !state.finished[i]
    {
      UnfinishedAreActive(c, slots, state.decodeStep, state.eos, sel, i);
      assert state.Slots()[i] == state.Slot(i);
    }
    forall k | 0 <= k < |active|
      ensures state.blockTables[active[k]] == Table(q, state.requestIds[active[k]])
      ensures var g := state.generated[active[k]]; g != [] && g[|g| - 1] == state.nextIds[active[k]]
    {
      assert active[k] in active;
      PendingRow(state, p, numBlocks, slots, sel, active, q, active[k]);
    }
  }

  lemma PendingRow(state: PagedBatchState, p: Pool, numBlocks: nat, slots: seq<DecodeSlot>, sel: seq<nat>,
                   active: seq<nat>, q: Pool, i: nat)
    requires state.Valid() && Valid(p, numBlocks) && i < |slots| == |state.requestIds| && DistinctIds(slots)
    requires slots[i].requestId == state.requestIds[i]
    requires Indexes(sel, |slots|) && NoDup(sel) && (q, state.Slots(), active) == Taken(p, slots, sel, state.eos)
    requires i in active
    requires state.blockTables == Tables(p, state.requestIds)
    ensures state.blockTables[i] == Table(q, state.requestIds[i])
    ensures var g := state.generated[i]; g != [] && g[|g| - 1] == state.nextIds[i]
  {
    hide Taken, BlockPool.Valid;
    TablesStillRight(p, numBlocks, slots, sel, state.eos, i);
    assert state.Slots()[i] == state.Slot(i);
  }

  /** The rest of a step once every active row has its block. */
  method DecodeActive(net: Network, rt: PagedCacheRuntime, state: PagedBatchState, sel: seq<nat>, ghost c: Cache)
    returns (r: Outcome<()>)
    requires rt.Valid() && state.Valid() && InStep(state) && state.eos != [] && NoDup(state.requestIds)
    requires c.pool.blockSize > 0 && c.kv == rt.cache.kv
    requires sel == Forward(state.Slots(), state.decodeStep, |state.requestIds|) != []
    requires Decodable(c, state.Slots(), state.decodeStep) == (rt.manager.View(), sel)
    requires state.decodeStep < state.maxNew
    modifies rt.manager, rt.cache, state
    ensures rt.Valid() && state.Valid()
    ensures r.Ok? ==>
              StepResult(true, rt.View(), state.Slots()) ==
                DecodeAtStep(net, rt.cache.numBlocks, c, old(state.Slots()), old(state.decodeStep), state.maxNew,
                             state.eos)
    ensures r.Ok? ==> state.decodeStep == old(state.decodeStep) + 1
    ensures var step := DecodeAtStep(net, rt.cache.numBlocks, c, old(state.Slots()), old(state.decodeStep),
                                     state.maxNew, state.eos);
            old(Known(rt.manager.View(), state.requestIds)) && step.ok ==> r.Ok?
  {
    ghost var slots, step := state.Slots(), state.decodeStep;
    assert slots != [];
    hide DecodeAtStep, BlockPool.Valid, Taken, Decodable, Forward, ForwardActive, InStep;
    var active := TakeWithTables(rt, state, sel, c);
    if active.Err? {
      return Err(active.error);
    }
    ghost var taken := state.Slots();
    if active.value == [] {
      assert BumpAll(taken, step) == taken;
      state.decodeStep := state.decodeStep + 1;
      assert state.Slots() == taken;
      StepEnds(net, rt.cache.numBlocks, c, slots, step, state.maxNew, state.eos);
      return Ok(());
    }
    ghost var pending := PendingTokens(taken, active.value);
    var next := ForwardRows(net, rt, state, active.value, pending);
    if next.Err? {
      StepFails(net, rt.cache.numBlocks, c, slots, step, state.maxNew, state.eos);
      return Err(next.error);
    }
    AdvanceRows(state, active.value, next.value);
    StepGoesOn(net, rt.cache.numBlocks, c, slots, step, state.maxNew, state.eos);
    r := Ok(());
  }

  lemma SelectedInStep(state: PagedBatchState, sel: seq<nat>)
    requires state.Valid() && InStep(state) && sel == Forward(state.Slots(), state.decodeStep, |state.requestIds|)
    ensures Indexes(sel, |state.requestIds|) && NoDup(sel)
    ensures forall k :: 0 <= k < |sel| ==> |state.generated[sel[k]]| == state.decodeStep && !state.finished[sel[k]]
  {
    ForwardIsSelection(state.Slots(), state.decodeStep, |state.requestIds|);
    forall k | 0 <= k < |sel|
      ensures !state.finished[sel[k]]
    {
      assert sel[k] in sel;
    }
  }

  lemma DistinctSlots(state: PagedBatchState, slots: seq<DecodeSlot>)
    requires NoDup(state.requestIds) && |slots| == |state.requestIds|
    requires forall i :: 0 <= i < |slots| ==> slots[i].requestId == state.requestIds[i]
    ensures DistinctIds(slots)
  {
  }

  lemma StepGoesOn(net: Network, numBlocks: nat, c: Cache, slots: seq<DecodeSlot>, step: nat, maxNew: nat,
                   eos: seq<Token>)
    requires c.pool.blockSize > 0 && slots != [] && step < maxNew && eos != []
    requires Decodable(c, slots, step).1 != []
    requires var (q, taken, active) := Taken(Decodable(c, slots, step).0, slots, Decodable(c, slots, step).1, eos);
             active != [] &&
               DecodeStepOk(Tables(q, Ids(taken, active)), PromptLens(taken, active), q.blockSize, numBlocks, step)
    ensures var (q, taken, active) := Taken(Decodable(c, slots, step).0, slots, Decodable(c, slots, step).1, eos);
            var (kv', next) := ForwardActive(net, q, c.kv, taken, active, step, PendingTokens(taken, active));
            DecodeAtStep(net, numBlocks, c, slots, step, maxNew, eos) ==
              StepResult(true, Cache(q, kv'), Advance(taken, active, next, |active|))
  {
    hide Decodable, Taken, ForwardActive, DecodeStepOk;
  }

  lemma StepFails(net: Network, numBlocks: nat, c: Cache, slots: seq<DecodeSlot>, step: nat, maxNew: nat,
                  eos: seq<Token>)
    requires c.pool.blockSize > 0 && slots != [] && step < maxNew && eos != []
    requires Decodable(c, slots, step).1 != []
    requires var (q, taken, active) := Taken(Decodable(c, slots, step).0, slots, Decodable(c, slots, step).1, eos);
             active != [] &&
               !DecodeStepOk(Tables(q, Ids(taken, active)), PromptLens(taken, active), q.blockSize, numBlocks, step)
    ensures !DecodeAtStep(net, numBlocks, c, slots, step, maxNew, eos).ok
  {
    hide Decodable, Taken, ForwardActive, DecodeStepOk;
  }

  /** Nothing left to decode. */
  predicate Over(state: PagedBatchState)
    reads state
  {
    state.decodeStep >= state.maxNew || forall i :: 0 <= i < |state.finished| ==> state.finished[i]
  }

  /** The next step is refused nothing and its forward pass is possible. */
  ghost predicate StepGranted(net: Network, rt: PagedCacheRuntime, state: PagedBatchState)
    requires rt.Valid() && state.Valid()
    reads rt, rt.manager, rt.cache, state
  {
    && AllFit(rt.manager.View(), state.Slots(), Forward(state.Slots(), state.decodeStep, |state.requestIds|))
    && Known(rt.manager.View(), state.requestIds)
    && rt.manager.blockSize > 0
    && DecodeAtStep(net, rt.cache.numBlocks, rt.View(), state.Slots(), state.decodeStep, state.maxNew, state.eos).ok
  }

  /** One greedy step of the whole batch; false when there is nothing left to do. */
  method PagedBatchDecodeStep(net: Network, rt: PagedCacheRuntime, state: PagedBatchState) returns (r: Outcome<bool>)
    requires rt.Valid() && state.Valid() && InStep(state) && state.eos != [] && NoDup(state.requestIds)
    modifies rt.manager, rt.cache, state
    ensures rt.Valid() && state.Valid()
    ensures r.Ok? && old(Over(state)) ==>
              !r.value && rt.View() == old(rt.View()) && state.Slots() == old(state.Slots()) &&
                state.decodeStep == old(state.decodeStep)
    ensures r.Ok? && !old(Over(state)) ==>
              && StepResult(true, rt.View(), state.Slots()) ==
                DecodeAtStep(net, rt.cache.numBlocks, old(rt.View()), old(state.Slots()), old(state.decodeStep),
                             state.maxNew, state.eos)
              && !Refuses(old(rt.View()), old(state.Slots()), old(state.decodeStep))
              && state.decodeStep == old(state.decodeStep) + 1
              && (r.value <==> exists i :: 0 <= i < |state.finished| && !state.finished[i])
    ensures old(Over(state)) || old(StepGranted(net, rt, state)) ==> r.Ok?
  {
    var all := AllFinished(state);
    if all || state.decodeStep >= state.maxNew {
      return Ok(false);
    }
    ghost var c, slots, step := rt.View(), state.Slots(), state.decodeStep;
    hide DecodeAtStep, BlockPool.Valid, Taken, Refuses, AllFit, Known;
    var sel := ActiveIndices(state);
    SelectedInStep(state, sel);
    ForwardIsSelection(slots, step, |slots|);
    SomeoneActive(state, sel);
    var grown := GrowActive(rt, state, sel);
    if grown.Err? {
      return Err(grown.error);
    }
    AllGotBlocks(c, slots, step, sel);
    if Known(c.pool, state.requestIds) {
      StepKeepsKnown(net, rt.cache.numBlocks, c, slots, step, state.maxNew, state.eos, state.requestIds);
    }
    var done := DecodeActive(net, rt, state, sel, c);
    if done.Err? {
      return Err(done.error);
    }
    all := AllFinished(state);
    r := Ok(!all);
  }

  lemma SomeoneActive(state: PagedBatchState, sel: seq<nat>)
    requires state.Valid() && !Over(state) && sel == Forward(state.Slots(), state.decodeStep, |state.requestIds|)
    ensures sel != []
  {
    ForwardIsSelection(state.Slots(), state.decodeStep, |state.requestIds|);
    var i :| 0 <= i < |state.finished| && !state.finished[i];
    assert TakesPart(state.Slots()[i], state.decodeStep);
    assert i in sel;
  }

  lemma AllGotBlocks(c: Cache, slots: seq<DecodeSlot>, step: nat, sel: seq<nat>)
    requires c.pool.blockSize > 0 && sel == Forward(slots, step, |slots|) && Decodable(c, slots, step).1 == sel
    ensures !Refuses(c, slots, step)
  {
    ForwardIsSelection(slots, step, |slots|);
  }

  /** Between steps every row is on the greedy path of its own prompt. */
  ghost predicate BatchSound(net: Network, numBlocks: nat, c: Cache, state: PagedBatchState, prompts: seq<seq<Item>>)
    requires state.Valid()
    reads state
  {
    && c.pool.blockSize > 0
    && ValidCache(c, numBlocks)
    && InStep(state)
    && state.decodeStep <= state.maxNew
    && AllSound(net, state.eos, state.maxNew, c.pool, c.kv, prompts, state.Slots())
  }

  /** A step that is refused nothing keeps every row on its path; the rows compacted out of its forward
      batch included. */
  lemma StepKeepsSound(net: Network, numBlocks: nat, c: Cache, slots: seq<DecodeSlot>, step: nat, maxNew: nat,
                       eos: seq<Token>, prompts: seq<seq<Item>>)
    requires c.pool.blockSize > 0 && StepInput(net, numBlocks, c, slots, step, maxNew, eos, prompts)
    requires !Refuses(c, slots, step)
    ensures StepRight(net, numBlocks, slots, maxNew, eos, prompts,
                      DecodeAtStep(net, numBlocks, c, slots, step, maxNew, eos))
  {
    hide StepRight, DecodeAtStep, StepInput;
    StepRightIff(net, numBlocks, c, slots, step, maxNew, eos, prompts);
    if Bumps(c, slots, step, maxNew, eos) {
      assert false;
    }
  }

  lemma SoundAgain(net: Network, numBlocks: nat, c: Cache, before: seq<DecodeSlot>, step: nat, state: PagedBatchState,
                   prompts: seq<seq<Item>>, c': Cache)
    requires state.Valid() && state.decodeStep == step + 1 <= state.maxNew && c'.pool.blockSize > 0
    requires StepRight(net, numBlocks, before, state.maxNew, state.eos, prompts, StepResult(true, c', state.Slots()))
    ensures BatchSound(net, numBlocks, c', state, prompts)
  {
    hide GreedyPrefix, Cached, BlockPool.Valid;
    forall i | 0 <= i < |state.finished| && !state.finished[i]
      ensures |state.generated[i]| == state.decodeStep
    {
      assert Sound(net, state.eos, state.maxNew, c'.pool, c'.kv, prompts[i], state.Slots()[i]);
    }
  }

  /** A batch right after its prefill. */
  lemma PrefilledSound(net: Network, numBlocks: nat, c: Cache, c': Cache, state: PagedBatchState,
                       prompts: seq<seq<Item>>)
    requires state.Valid() && 0 < c.pool.blockSize == c'.pool.blockSize && NoDup(state.requestIds)
    requires state.decodeStep == 0
    requires state.generated == seq(|state.requestIds|, _ => []) && state.finished == Ended(state.nextIds, state.eos)
    requires Prefilled(net, numBlocks, c, c', state.requestIds, state.promptLens, prompts, state.nextIds, state.eos)
    ensures BatchSound(net, numBlocks, c', state, prompts)
  {
    hide BlockPool.Valid, TrimFinished, GrowPrompts;
    DistinctSlots(state, state.Slots());
    forall i | 0 <= i < |state.requestIds|
      ensures Sound(net, state.eos, state.maxNew, c'.pool, c'.kv, prompts[i], state.Slots()[i])
    {
      assert prompts[i] + Embed([]) == prompts[i];
    }
  }

  /** When nothing is left to decode every row has its output. */
  lemma OverIsGreedy(net: Network, numBlocks: nat, c: Cache, state: PagedBatchState, prompts: seq<seq<Item>>, i: nat)
    requires state.Valid() && BatchSound(net, numBlocks, c, state, prompts) && Over(state) && i < |state.requestIds|
    ensures state.generated[i] == Greedy(net, state.eos, prompts[i], state.maxNew)
  {
    var slot := state.Slots()[i];
    assert Sound(net, state.eos, state.maxNew, c.pool, c.kv, prompts[i], slot);
    if !slot.finished {
      FinishedSound(net, state.eos, state.maxNew, c.pool, c.kv, prompts[i], slot);
    }
    GreedyCharacterised(net, state.eos, prompts[i], state.maxNew, slot.generated);
  }

  /** Only the requests of the batch are touched. */
  ghost predicate OthersUntouched(p: Pool, q: Pool, ids: seq<nat>) {
    forall id: nat :: id !in ids ==> Table(q, id) == Table(p, id)
  }

  /** The loop: step after step until nothing is left to do. */
  method DecodeToEnd(net: Network, rt: PagedCacheRuntime, state: PagedBatchState, ghost prompts: seq<seq<Item>>)
    returns (r: Outcome<()>)
    requires rt.Valid() && state.Valid() && state.eos != [] && NoDup(state.requestIds)
    requires BatchSound(net, rt.cache.numBlocks, rt.View(), state, prompts)
    modifies rt.manager, rt.cache, state
    ensures rt.Valid() && state.Valid()
    ensures r.Ok? ==> BatchSound(net, rt.cache.numBlocks, rt.View(), state, prompts) && Over(state)
    ensures r.Ok? ==> OthersUntouched(old(rt.manager.View()), rt.manager.View(), state.requestIds)
    ensures old(AmpleState(rt, state)) ==> r.Ok?
  {
    hide BlockPool.Valid, DecodeAtStep, Refuses, AllSound, StepRight, AllFit, Ample, Known;
    ghost var entry := rt.manager.View();
    ghost var ample := AmpleState(rt, state);
    var continued := true;
    while continued && !(state.decodeStep >= state.maxNew)
      invariant rt.Valid() && state.Valid() && BatchSound(net, rt.cache.numBlocks, rt.View(), state, prompts)
      invariant continued || Over(state)
      invariant OthersUntouched(entry, rt.manager.View(), state.requestIds)
      invariant ample ==> AmpleState(rt, state)
      decreases if continued then 1 else 0, state.maxNew - state.decodeStep
    {
      ghost var c, slots, step := rt.View(), state.Slots(), state.decodeStep;
      var all := AllFinished(state);
      if all {
        break;
      }
      if ample {
        AmpleGrants(net, rt, state, prompts);
      }
      var more := PagedBatchDecodeStep(net, rt, state);
      if more.Err? {
        return Err(more.error);
      }
      SoundInput(net, rt.cache.numBlocks, c, slots, step, state, prompts);
      StepKeepsSound(net, rt.cache.numBlocks, c, slots, step, state.maxNew, state.eos, prompts);
      SoundAgain(net, rt.cache.numBlocks, c, slots, step, state, prompts, rt.View());
      StepLeavesOthers(net, rt.cache.numBlocks, c, slots, step, state.maxNew, state.eos, state.requestIds);
      continued := more.value;
    }
    r := Ok(());
  }

  /** The pool has room for every row's whole budget, and every row has its table. */
  ghost predicate AmpleState(rt: PagedCacheRuntime, state: PagedBatchState)
    reads rt, rt.manager, rt.cache, state
  {
    Known(rt.manager.View(), state.requestIds) &&
      exists limit: nat :: Ample(rt.manager.View(), rt.cache.numBlocks, state.requestIds, state.promptLens,
                                 state.maxNew, limit)
  }

  /** With ample room the next step is granted. */
  lemma AmpleGrants(net: Network, rt: PagedCacheRuntime, state: PagedBatchState, prompts: seq<seq<Item>>)
    requires rt.Valid() && state.Valid() && state.eos != [] && NoDup(state.requestIds)
    requires BatchSound(net, rt.cache.numBlocks, rt.View(), state, prompts)
    requires AmpleState(rt, state) && state.decodeStep < state.maxNew
    ensures StepGranted(net, rt, state)
    ensures var c, slots, step := rt.View(), state.Slots(), state.decodeStep;
            var q := DecodeAtStep(net, rt.cache.numBlocks, c, slots, step, state.maxNew, state.eos).cache.pool;
            Known(q, state.requestIds) &&
              exists limit: nat :: Ample(q, rt.cache.numBlocks, state.requestIds, state.promptLens, state.maxNew, limit)
  {
    hide BlockPool.Valid, DecodeAtStep, Refuses, AllSound, StepRight, AllFit, Ample, Known;
    var c, slots, step := rt.View(), state.Slots(), state.decodeStep;
    var limit: nat :|
      Ample(rt.manager.View(), rt.cache.numBlocks, state.requestIds, state.promptLens, state.maxNew, limit);
    AmpleStep(net, rt.cache.numBlocks, c, slots, step, state.maxNew, state.eos, state.requestIds, state.promptLens,
              limit);
    StepKeepsKnown(net, rt.cache.numBlocks, c, slots, step, state.maxNew, state.eos, state.requestIds);
    SoundInput(net, rt.cache.numBlocks, c, slots, step, state, prompts);
    StepKeepsSound(net, rt.cache.numBlocks, c, slots, step, state.maxNew, state.eos, prompts);
    GrantedOk(net, rt.cache.numBlocks, c, slots, step, state, prompts);
  }

  lemma GrantedOk(net: Network, numBlocks: nat, c: Cache, slots: seq<DecodeSlot>, step: nat, state: PagedBatchState,
                  prompts: seq<seq<Item>>)
    requires c.pool.blockSize > 0
    requires StepRight(net, numBlocks, slots, state.maxNew, state.eos, prompts,
                       DecodeAtStep(net, numBlocks, c, slots, step, state.maxNew, state.eos))
    ensures DecodeAtStep(net, numBlocks, c, slots, step, state.maxNew, state.eos).ok
  {
    hide DecodeAtStep;
  }

  lemma SoundInput(net: Network, numBlocks: nat, c: Cache, slots: seq<DecodeSlot>, step: nat, state: PagedBatchState,
                   prompts: seq<seq<Item>>)
    requires c.pool.blockSize > 0 && ValidCache(c, numBlocks) && state.eos != []
    requires AllSound(net, state.eos, state.maxNew, c.pool, c.kv, prompts, slots)
    requires forall i :: 0 <= i < |slots| && !slots[i].finished ==> slots[i].decodeStep == step
    ensures StepInput(net, numBlocks, c, slots, step, state.maxNew, state.eos, prompts)
  {
  }

  lemma StepLeavesOthers(net: Network, numBlocks: nat, c: Cache, slots: seq<DecodeSlot>, step: nat, maxNew: nat,
                         eos: seq<Token>, ids: seq<nat>)
    requires c.pool.blockSize > 0 && ValidCache(c, numBlocks) && |slots| == |ids|
    requires forall i :: 0 <= i < |slots| ==> slots[i].requestId == ids[i]
    ensures OthersUntouched(c.pool, DecodeAtStep(net, numBlocks, c, slots, step, maxNew, eos).cache.pool, ids)
  {
    hide DecodeAtStep;
    StepPartitions(net, numBlocks, c, slots, step, maxNew, eos);
    forall id: nat | id !in ids
      ensures forall i :: 0 <= i < |slots| ==> slots[i].requestId != id
    {
    }
  }

  /** What a static run returns: for every row the tokens of decoding its prompt alone. */
  ghost predicate GreedyOutputs(net: Network, eos: seq<Token>, maxNew: nat, idRows: seq<seq<Token>>,
                                masks: seq<seq<nat>>, audioId: Token, audio: seq<AudioRow>, outputs: seq<seq<Token>>)
  {
    && |masks| == |idRows| == |outputs|
    && (forall i :: 0 <= i < |idRows| ==> |idRows[i]| == |masks[i]|)
    && AudioOffset(VisibleRows(idRows, masks), audioId, |idRows|) <= |audio|
    && forall i ::
         0 <= i < |idRows| ==> outputs[i] == Greedy(net, eos, BatchPrompts(idRows, masks, audioId, audio)[i], maxNew)
  }

  function NoTokens(n: nat): (outputs: seq<seq<Token>>)
    ensures |outputs| == n
  {
    seq(n, _ => [])
  }

  /** Run one batch from its prompts to the end. */
  method PagedBatchRun(net: Network, rt: PagedCacheRuntime, audioId: Token, idRows: seq<seq<Token>>,
                       masks: seq<seq<nat>>, audio: seq<AudioRow>,
                       requestIdBase: nat, maxNew: nat, eos: seq<Token>, packed: bool)
    returns (r: Outcome<seq<seq<Token>>>)
    requires rt.Valid() && CleanBatch(idRows, masks, audioId)
    modifies rt.manager, rt.cache
    ensures rt.Valid()
    ensures idRows == [] || maxNew == 0 ==> r == Ok(NoTokens(|idRows|)) && rt.View() == old(rt.View())
    ensures idRows != [] && maxNew > 0 && r.Ok? ==>
              eos != [] && GreedyOutputs(net, eos, maxNew, idRows, masks, audioId, audio, r.value)
    ensures r.Ok? && maxNew > 0 ==> forall id: nat ::
              Table(rt.manager.View(), id) ==
                if id in RequestIds(requestIdBase, |idRows|) then [] else Table(old(rt.manager.View()), id)
    ensures var p := old(rt.manager.View());
            RoomForBatch(p, rt.cache.numBlocks, idRows, masks, audioId, audio, requestIdBase, maxNew, eos, packed) ==>
              r.Ok?
  {
    hide BlockPool.Valid, Ample, Known, RoomForBatch, Prefilled, PromptsFit, BatchSound, CleanBatch, AudioOffset,
         VisibleRows, BatchPrompts, Greedy;
    if idRows == [] {
      assert NoTokens(0) == [];
      return Ok([]);
    }
    if maxNew == 0 {
      return Ok(NoTokens(|idRows|));
    }
    ghost var entry := rt.manager.View();
    var requestIds := RequestIds(requestIdBase, |idRows|);
    RequestIdsRange(requestIdBase, |idRows|);
    ReleaseAllValid(entry, requestIds, |requestIds|, rt.cache.numBlocks);
    assert requestIds[..|requestIds|] == requestIds;
    rt.manager.FreeMany(requestIds);
    ghost var c := rt.View();
    ghost var room :=
      RoomForBatch(entry, rt.cache.numBlocks, idRows, masks, audioId, audio, requestIdBase, maxNew, eos, packed);
    if room {
      RoomGrants(entry, rt.cache.numBlocks, idRows, masks, audioId, audio, requestIdBase, maxNew, eos, packed);
    }
    var prefilled := Prefill(net, rt, audioId, idRows, masks, audio, requestIdBase, maxNew, eos, packed);
    if prefilled.Err? {
      return Err(prefilled.error);
    }
    var state := prefilled.value;
    ghost var prompts := BatchPrompts(idRows, masks, audioId, audio);
    PrefilledSound(net, rt.cache.numBlocks, c, rt.View(), state, prompts);
    if room {
      RoomAfterPrefill(net, entry, rt.cache.numBlocks, c, rt.View(), idRows, masks, audioId, audio, requestIdBase,
                       maxNew, eos, packed, prompts, state.nextIds);
    }
    var done := DecodeToEnd(net, rt, state, prompts);
    if done.Err? {
      return Err(done.error);
    }
    forall i | 0 <= i < |idRows|
      ensures state.generated[i] == Greedy(net, eos, prompts[i], maxNew)
    {
      OverIsGreedy(net, rt.cache.numBlocks, rt.View(), state, prompts, i);
    }
    ReleaseAllValid(rt.manager.View(), requestIds, |requestIds|, rt.cache.numBlocks);
    rt.manager.FreeMany(state.requestIds);
    r := Ok(state.generated);
  }
}
