/** One decode step of continuous batching on values: what `paged_batch_decode_slots_at_step` does
    to the slots and the cache, and why each slot stays on the path of greedy decoding. */
module DecodeStep {
  import opened Decoding
  import opened BlockPool
  import opened SlotMapping
  import opened PagedKvCache
  import opened PagedCacheRuntime

  datatype DecodeSlot = DecodeSlot(
    requestId: nat, promptLen: nat, nextId: Token, generated: seq<Token>, finished: bool, decodeStep: nat)

  /** Tokens the slot occupies in the cache once its pending token is stored. */
  function TokensAfter(s: DecodeSlot): nat {
    s.promptLen + |s.generated| + 1
  }

  /** Every listed index is below `n`. */
  predicate Indexes(sel: seq<nat>, n: nat) {
    forall k :: 0 <= k < |sel| ==> sel[k] < n
  }

  predicate TakesPart(s: DecodeSlot, step: nat) {
    !s.finished && s.decodeStep == step
  }

  /** Indices below `k` that take part in the step, in order. */
  function Forward(slots: seq<DecodeSlot>, step: nat, k: nat): (sel: seq<nat>)
    requires k <= |slots|
    ensures Indexes(sel, k)
  {
    if k == 0 then [] else
      var sel := Forward(slots, step, k - 1);
      if TakesPart(slots[k - 1], step) then sel + [k - 1] else sel
  }

  /** Grow the allocation of each selected slot in turn; those refused are skipped. */
  function GrowSelected(p: Pool, slots: seq<DecodeSlot>, sel: seq<nat>, k: nat): (r: (Pool, seq<nat>))
    requires p.blockSize > 0 && k <= |sel| && Indexes(sel, |slots|)
    ensures r.0.blockSize == p.blockSize && Indexes(r.1, |slots|)
  {
    if k == 0 then (p, []) else
      var (q, decodable) := GrowSelected(p, slots, sel, k - 1);
      var s := slots[sel[k - 1]];
      (Grow(q, s.requestId, TokensAfter(s)),
       if Fits(q, s.requestId, TokensAfter(s)) then decodable + [sel[k - 1]] else decodable)
  }

  /** Finish the decodable slots whose pending token ends the sequence, give back their spare
      block, and append the pending token of the others, which become active. */
  function TakeTokens(p: Pool, slots: seq<DecodeSlot>, decodable: seq<nat>, eos: seq<Token>,
                      k: nat): (r: (Pool, seq<DecodeSlot>, seq<nat>))
    requires p.blockSize > 0 && k <= |decodable| && Indexes(decodable, |slots|)
    ensures r.0.blockSize == p.blockSize && |r.1| == |slots| && Indexes(r.2, |slots|)
  {
    if k == 0 then (p, slots, []) else
      var (q, after, active) := TakeTokens(p, slots, decodable, eos, k - 1);
      var i := decodable[k - 1];
      var s := after[i];
      if s.nextId in eos then
        (Trim(q, s.requestId, s.promptLen + |s.generated|), after[i := s.(finished := true)], active)
      else
        (q, after[i := s.(generated := s.generated + [s.nextId])], active + [i])
  }

  /** The branch without a forward pass: every slot still waiting at this step is moved on. */
  function BumpAll(slots: seq<DecodeSlot>, step: nat): (r: seq<DecodeSlot>)
    ensures |r| == |slots|
  {
    seq(|slots|, i requires 0 <= i < |slots| =>
      if TakesPart(slots[i], step) then slots[i].(decodeStep := slots[i].decodeStep + 1) else slots[i])
  }

  function FinishAll(slots: seq<DecodeSlot>): (r: seq<DecodeSlot>)
    ensures |r| == |slots|
  {
    seq(|slots|, i requires 0 <= i < |slots| => slots[i].(finished := true))
  }

  function Ids(slots: seq<DecodeSlot>, active: seq<nat>): (ids: seq<nat>)
    requires Indexes(active, |slots|)
    ensures |ids| == |active|
  {
    seq(|active|, r requires 0 <= r < |active| => slots[active[r]].requestId)
  }

  function PromptLens(slots: seq<DecodeSlot>, active: seq<nat>): (lens: seq<nat>)
    requires Indexes(active, |slots|)
    ensures |lens| == |active|
  {
    seq(|active|, r requires 0 <= r < |active| => slots[active[r]].promptLen)
  }

  function PendingTokens(slots: seq<DecodeSlot>, active: seq<nat>): (toks: seq<Token>)
    requires Indexes(active, |slots|)
    ensures |toks| == |active|
  {
    seq(|active|, r requires 0 <= r < |active| => slots[active[r]].nextId)
  }

  /** The rows of a single-token forward pass: position ids are prompt length plus step. */
  function DecodeRows(m: Metadata, promptLens: seq<nat>, step: nat, toks: seq<Token>): (rows: seq<Row>)
    requires |m.slotMapping| == |m.blockTables| == |m.contextLens| == |promptLens| == |toks|
    requires forall r :: 0 <= r < |m.contextLens| ==> m.contextLens[r] > 0
    ensures |rows| == |toks| && forall row :: row in rows ==> WellShaped(row)
  {
    seq(|toks|, r requires 0 <= r < |toks| =>
      Row(m.blockTables[r], m.contextLens[r] - 1, [Embedding(toks[r])], [promptLens[r] + step], [m.slotMapping[r]]))
  }

  /** The greedy choice of each row, read back through its block table after all rows are stored. */
  function NextIds(net: Network, kv: seq<Kv>, bs: nat, m: Metadata): (next: seq<Token>)
    requires bs > 0 && |m.blockTables| == |m.contextLens|
    ensures |next| == |m.contextLens|
  {
    seq<Token>(|m.contextLens|,
               r requires 0 <= r < |m.contextLens| => net.head(Read(net, kv, m.blockTables[r], bs, m.contextLens[r])))
  }

  function Advance(slots: seq<DecodeSlot>, active: seq<nat>, next: seq<Token>, k: nat): (r: seq<DecodeSlot>)
    requires k <= |active| == |next| && Indexes(active, |slots|)
    ensures |r| == |slots|
  {
    if k == 0 then slots else
      var after := Advance(slots, active, next, k - 1);
      var i := active[k - 1];
      after[i := after[i].(nextId := next[k - 1], decodeStep := after[i].decodeStep + 1)]
  }

  datatype StepResult = StepResult(ok: bool, cache: Cache, slots: seq<DecodeSlot>)

  function Decodable(c: Cache, slots: seq<DecodeSlot>, step: nat): (r: (Pool, seq<nat>))
    requires c.pool.blockSize > 0
    ensures r.0.blockSize == c.pool.blockSize && Indexes(r.1, |slots|)
  {
    var sel := Forward(slots, step, |slots|);
    GrowSelected(c.pool, slots, sel, |sel|)
  }

  function Taken(p: Pool, slots: seq<DecodeSlot>, decodable: seq<nat>,
                 eos: seq<Token>): (r: (Pool, seq<DecodeSlot>, seq<nat>))
    requires p.blockSize > 0 && Indexes(decodable, |slots|)
    ensures r.0.blockSize == p.blockSize && |r.1| == |slots| && Indexes(r.2, |slots|)
  {
    TakeTokens(p, slots, decodable, eos, |decodable|)
  }

  /** The forward pass over the active slots: stored entries and greedy choices. */
  function ForwardActive(net: Network, p: Pool, kv: seq<Kv>, slots: seq<DecodeSlot>, active: seq<nat>, step: nat,
                         toks: seq<Token>): (r: (seq<Kv>, seq<Token>))
    requires p.blockSize > 0 && |toks| == |active| && Indexes(active, |slots|)
    ensures |r.0| == |kv| && |r.1| == |active|
  {
    var m := DecodeMetadata(Tables(p, Ids(slots, active)), PromptLens(slots, active), p.blockSize, step);
    var kv' := WriteRows(net, kv, p.blockSize, DecodeRows(m, PromptLens(slots, active), step, toks), |active|);
    (kv', NextIds(net, kv', p.blockSize, m))
  }

  /** The part of a step after the allocations. */
  ghost function DecodeTaken(net: Network, numBlocks: nat, kv: seq<Kv>, p: Pool, slots: seq<DecodeSlot>,
                             decodable: seq<nat>, step: nat, eos: seq<Token>): (r: StepResult)
    requires p.blockSize > 0 && Indexes(decodable, |slots|)
    ensures |r.slots| == |slots| && r.cache.pool.blockSize == p.blockSize && |r.cache.kv| == |kv|
  {
    var (q, taken, active) := Taken(p, slots, decodable, eos);
    if active == [] then StepResult(true, Cache(q, kv), BumpAll(taken, step))
    else if !DecodeStepOk(Tables(q, Ids(taken, active)), PromptLens(taken, active), q.blockSize, numBlocks, step) then
      StepResult(false, Cache(q, kv), taken)
    else
      var (kv', next) := ForwardActive(net, q, kv, taken, active, step, PendingTokens(taken, active));
      StepResult(true, Cache(q, kv'), Advance(taken, active, next, |active|))
  }

  ghost function DecodeAtStep(net: Network, numBlocks: nat, c: Cache, slots: seq<DecodeSlot>, step: nat, maxNew: nat,
                              eos: seq<Token>): (r: StepResult)
    requires c.pool.blockSize > 0
    ensures |r.slots| == |slots| && r.cache.pool.blockSize == c.pool.blockSize && |r.cache.kv| == |c.kv|
  {
    if slots == [] then StepResult(true, c, slots)
    else if step >= maxNew then StepResult(true, c, FinishAll(slots))
    else if eos == [] then StepResult(false, c, slots)
    else
      var (p, decodable) := Decodable(c, slots, step);
      if decodable == [] then StepResult(true, Cache(p, c.kv), slots)
      else DecodeTaken(net, numBlocks, c.kv, p, slots, decodable, step, eos)
  }
}
