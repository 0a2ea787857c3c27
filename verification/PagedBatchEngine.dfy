/** The batch engine as it runs: slots and cache are updated in place, step by step. */
module PagedBatchEngine {
  import opened Prelude
  import opened Decoding
  import opened BlockPool
  import opened SlotMapping
  import opened PagedKvCache
  import opened PagedCacheRuntime
  import opened DecodeStep
  import opened DecodeSoundness

  /** Grow each selected slot's allocation; the indices that got their block. */
  method GrowForDecode(rt: PagedCacheRuntime, slots: array<DecodeSlot>, sel: seq<nat>) returns (decodable: seq<nat>)
    requires rt.manager.blockSize > 0 && Indexes(sel, slots.Length)
    modifies rt.manager
    ensures (rt.manager.View(), decodable) == GrowSelected(old(rt.manager.View()), slots[..], sel, |sel|)
  {
    decodable := [];
    for k := 0 to |sel|
      invariant (rt.manager.View(), decodable) == GrowSelected(old(rt.manager.View()), slots[..], sel, k)
    {
      var slot := slots[sel[k]];
      var numTokens := slot.promptLen + |slot.generated| + 1;
      var ok := rt.manager.TryAllocateSlots(slot.requestId, numTokens);
      if ok {
        decodable := decodable + [sel[k]];
      }
    }
  }

  /** Finish the slots whose pending token is an end token; append the token of the others. */
  method TakePendingTokens(rt: PagedCacheRuntime, slots: array<DecodeSlot>, decodable: seq<nat>, eos: seq<Token>)
    returns (active: seq<nat>)
    requires rt.manager.blockSize > 0 && Indexes(decodable, slots.Length)
    modifies rt.manager, slots
    ensures (rt.manager.View(), slots[..], active) == Taken(old(rt.manager.View()), old(slots[..]), decodable, eos)
  {
    active := [];
    ghost var p, before := rt.manager.View(), slots[..];
    for k := 0 to |decodable|
      invariant (rt.manager.View(), slots[..], active) == TakeTokens(p, before, decodable, eos, k)
    {
      var i := decodable[k];
      var tok := slots[i].nextId;
      if tok in eos {
        slots[i] := slots[i].(finished := true);
        rt.manager.TrimRequestToNumTokens(slots[i].requestId, slots[i].promptLen + |slots[i].generated|);
      } else {
        slots[i] := slots[i].(generated := slots[i].generated + [tok]);
        active := active + [i];
      }
    }
  }

  method BumpWaiting(slots: array<DecodeSlot>, step: nat)
    modifies slots
    ensures slots[..] == BumpAll(old(slots[..]), step)
  {
    for i := 0 to slots.Length
      invariant slots[..i] == BumpAll(old(slots[..]), step)[..i]
      invariant slots[i..] == old(slots[..])[i..]
    {
      assert slots[i] == slots[i..][0];
      if !slots[i].finished && slots[i].decodeStep == step {
        slots[i] := slots[i].(decodeStep := slots[i].decodeStep + 1);
      }
    }
  }

  method AdvanceActive(slots: array<DecodeSlot>, active: seq<nat>, next: seq<Token>)
    requires |active| == |next| && Indexes(active, slots.Length)
    modifies slots
    ensures slots[..] == Advance(old(slots[..]), active, next, |active|)
  {
    for k := 0 to |active|
      invariant slots[..] == Advance(old(slots[..]), active, next, k)
    {
      var i := active[k];
      slots[i] := slots[i].(nextId := next[k], decodeStep := slots[i].decodeStep + 1);
    }
  }

  /** The forward pass over the active slots: metadata, stored entries, greedy choices. */
  method ForwardActiveSlots(net: Network, rt: PagedCacheRuntime, slots: array<DecodeSlot>, active: seq<nat>, step: nat,
                            ghost pending: seq<Token>)
    returns (r: Outcome<seq<Token>>)
    requires rt.Valid() && Indexes(active, slots.Length) && active != [] && |pending| == |active|
    requires forall k :: 0 <= k < |active| ==> slots[active[k]].requestId in rt.manager.requestBlocks
    requires forall k :: 0 <= k < |active| ==> var g := slots[active[k]].generated; g != [] && g[|g| - 1] == pending[k]
    modifies rt.cache
    ensures var (ids, lens) := (Ids(slots[..], active), PromptLens(slots[..], active));
            && (r.Ok? <==>
                DecodeStepOk(Tables(rt.manager.View(), ids), lens, rt.manager.blockSize, rt.cache.numBlocks, step))
            && (r.Ok? ==>
                (rt.cache.kv, r.value) ==
                  ForwardActive(net, rt.manager.View(), old(rt.cache.kv), slots[..], active, step, pending))
            && (r.Err? ==> rt.cache.kv == old(rt.cache.kv))
  {
    var tokensIn: seq<Token> := [];
    for k := 0 to |active|
      invariant tokensIn == pending[..k]
    {
      var g := slots[active[k]].generated;
      tokensIn := tokensIn + [g[|g| - 1]];
    }
    var ids, promptLens := Ids(slots[..], active), PromptLens(slots[..], active);
    ghost var pool := rt.manager.View();
    var tables := rt.manager.BlockTablesFor(ids);
    assert tables.Ok?;
    var metadata := rt.cache.DecodeMetadataForBatchStep(tables.value, promptLens, step);
    forall k | 0 <= k < |ids|
      ensures InPool(tables.value[k], rt.cache.numBlocks)
    {
      TableInPool(pool, ids[k], rt.cache.numBlocks);
    }
    EarlierStepsSucceed(tables.value, promptLens, rt.manager.blockSize, rt.cache.numBlocks, step);
    if metadata.Err? {
      return Err(metadata.error);
    }
    var m := metadata.value;
    assert tokensIn == pending;
    rt.cache.kv :=
      WriteRows(net, rt.cache.kv, rt.manager.blockSize, DecodeRows(m, promptLens, step, tokensIn), |active|);
    r := Ok(NextIds(net, rt.cache.kv, rt.manager.blockSize, m));
  }

  lemma {:induction false} ActiveOwnBlocks(p: Pool, slots: seq<DecodeSlot>, sel: seq<nat>, k: nat)
    requires p.blockSize > 0 && k <= |sel| && Indexes(sel, |slots|)
    ensures forall i ::
              i in GrowSelected(p, slots, sel, k).1 ==>
                i < |slots| && slots[i].requestId in GrowSelected(p, slots, sel, k).0.tables
  {
    if k > 0 {
      ActiveOwnBlocks(p, slots, sel, k - 1);
      var q := GrowSelected(p, slots, sel, k - 1).0;
      var s := slots[sel[k - 1]];
      DivCeilLeast(TokensAfter(s), p.blockSize, 0);
    }
  }

  lemma {:induction false} TakeKeepsKeys(p: Pool, slots: seq<DecodeSlot>, decodable: seq<nat>, eos: seq<Token>, k: nat)
    requires p.blockSize > 0 && k <= |decodable| && Indexes(decodable, |slots|)
    ensures TakeTokens(p, slots, decodable, eos, k).0.tables.Keys == p.tables.Keys
  {
    if k > 0 {
      TakeKeepsKeys(p, slots, decodable, eos, k - 1);
    }
  }

  method ForwardIndices(slots: array<DecodeSlot>, step: nat) returns (sel: seq<nat>)
    ensures sel == Forward(slots[..], step, slots.Length)
  {
    sel := [];
    for i := 0 to slots.Length
      invariant sel == Forward(slots[..], step, i)
    {
      if !slots[i].finished && slots[i].decodeStep == step {
        sel := sel + [i];
      }
    }
  }

  /** A step that allocated at least one block: take the tokens, then forward or move on. */
  method DecodeGrown(net: Network, rt: PagedCacheRuntime, slots: array<DecodeSlot>, decodable: seq<nat>, step: nat,
                     eos: seq<Token>, ghost c: Cache)
    returns (r: Outcome<()>)
    requires rt.Valid() && rt.View().kv == c.kv && 0 < c.pool.blockSize && decodable != []
    requires (rt.manager.View(), decodable) == Decodable(c, slots[..], step)
    requires ValidCache(c, rt.cache.numBlocks)
    modifies slots, rt.manager, rt.cache
    ensures StepResult(r.Ok?, rt.View(), slots[..]) ==
              DecodeTaken(net, rt.cache.numBlocks, c.kv, old(rt.manager.View()), old(slots[..]), decodable, step, eos)
  {
    ghost var (p, before) := (rt.manager.View(), slots[..]);
    SelectionDistinct(c, slots[..], step);
    var active := TakePendingTokens(rt, slots, decodable, eos);
    TakeTokensTables(p, before, decodable, eos, |decodable|, rt.cache.numBlocks);
    if active == [] {
      BumpWaiting(slots, step);
      return Ok(());
    }
    ghost var pending := PendingTokens(slots[..], active);
    forall k | 0 <= k < |active|
      ensures slots[active[k]].requestId in rt.manager.requestBlocks
      ensures var g := slots[active[k]].generated; g != [] && g[|g| - 1] == pending[k]
    {
      assert active[k] in active;
      TakenShape(p, before, decodable, eos, active[k]);
      var sel := Forward(before, step, |before|);
      ActiveOwnBlocks(c.pool, before, sel, |sel|);
      TakeKeepsKeys(p, before, decodable, eos, |decodable|);
    }
    var next := ForwardActiveSlots(net, rt, slots, active, step, pending);
    if next.Err? {
      return Err(next.error);
    }
    AdvanceActive(slots, active, next.value);
    r := Ok(());
  }

  /** One greedy decode step for `slots`, in place. */
  method DecodeSlotsAtStep(net: Network, rt: PagedCacheRuntime, slots: array<DecodeSlot>, step: nat, maxNew: nat,
                           eos: seq<Token>)
    returns (r: Outcome<()>)
    requires rt.Valid()
    modifies slots, rt.manager, rt.cache
    ensures rt.Valid()
    ensures StepResult(r.Ok?, rt.View(), slots[..]) ==
              DecodeAtStep(net, rt.cache.numBlocks, old(rt.View()), old(slots[..]), step, maxNew, eos)
  {
    StepPartitions(net, rt.cache.numBlocks, rt.View(), slots[..], step, maxNew, eos);
    if slots.Length == 0 {
      return Ok(());
    }
    if step >= maxNew {
      for i := 0 to slots.Length
        modifies slots
        invariant slots[..i] == FinishAll(old(slots[..]))[..i]
        invariant slots[i..] == old(slots[..])[i..]
      {
        assert slots[i] == slots[i..][0];
        slots[i] := slots[i].(finished := true);
      }
      return Ok(());
    }
    if eos == [] {
      return Err("eos_token_ids is empty");
    }
    var forwardIndices := ForwardIndices(slots, step);
    if forwardIndices == [] {
      return Ok(());
    }
    ghost var c := rt.View();
    GrowSelectedTables(c.pool, slots[..], forwardIndices, |forwardIndices|, rt.cache.numBlocks);
    var decodable := GrowForDecode(rt, slots, forwardIndices);
    if decodable == [] {
      return Ok(());
    }
    r := DecodeGrown(net, rt, slots, decodable, step, eos, c);
  }
}
