/** A decode step keeps every sequence of its batch on the path of unbatched greedy decoding, and
    touches nobody else's cache. */
module DecodeSoundness {
  import opened Prelude
  import opened Decoding
  import opened BlockPool
  import opened SlotMapping
  import opened PagedKvCache
  import opened PagedCacheRuntime
  import opened DecodeStep

  /** The request's blocks hold what encoding `items` alone would have cached. */
  ghost predicate Cached(net: Network, p: Pool, kv: seq<Kv>, id: nat, items: seq<Item>)
    requires p.blockSize > 0
  {
    && Covers(Table(p, id), p.blockSize, |items|)
    && Read(net, kv, Table(p, id), p.blockSize, |items|) == Encode(net, items)
  }

  function Context(prompt: seq<Item>, s: DecodeSlot): seq<Item> {
    prompt + Embed(s.generated)
  }

  /** An unfinished slot between steps: cached, on the greedy path, its next token chosen. */
  ghost predicate Ready(net: Network, eos: seq<Token>, maxNew: nat, p: Pool, kv: seq<Kv>, prompt: seq<Item>,
                        s: DecodeSlot)
    requires p.blockSize > 0
  {
    && s.promptLen == |prompt|
    && s.decodeStep == |s.generated| <= maxNew
    && GreedyPrefix(net, eos, prompt, s.generated)
    && Cached(net, p, kv, s.requestId, Context(prompt, s))
    && s.nextId == NextToken(net, Context(prompt, s))
  }

  ghost predicate Sound(net: Network, eos: seq<Token>, maxNew: nat, p: Pool, kv: seq<Kv>, prompt: seq<Item>,
                        s: DecodeSlot)
    requires p.blockSize > 0
  {
    if s.finished then GreedyComplete(net, eos, prompt, maxNew, s.generated)
    else Ready(net, eos, maxNew, p, kv, prompt, s)
  }

  lemma CachedFrame(net: Network, p: Pool, q: Pool, kv: seq<Kv>, id: nat, items: seq<Item>)
    requires 0 < p.blockSize == q.blockSize && Table(p, id) <= Table(q, id)
    requires Cached(net, p, kv, id, items)
    ensures Cached(net, q, kv, id, items)
  {
    ReadThroughPrefix(net, kv, Table(p, id), Table(q, id), p.blockSize, |items|);
    MulMonotone(|Table(p, id)|, |Table(q, id)|, p.blockSize);
  }

  // ----- growing

  ghost predicate DistinctIds(slots: seq<DecodeSlot>) {
    forall i, j :: 0 <= i < j < |slots| ==> slots[i].requestId != slots[j].requestId
  }

  lemma {:induction false} ForwardIsSelection(slots: seq<DecodeSlot>, step: nat, k: nat)
    requires k <= |slots|
    ensures NoDup(Forward(slots, step, k))
    ensures forall i: nat :: i in Forward(slots, step, k) <==> i < k && TakesPart(slots[i], step)
  {
    if k > 0 {
      ForwardIsSelection(slots, step, k - 1);
    }
  }

  /** One more slot's turn. */
  lemma GrowNext(p: Pool, slots: seq<DecodeSlot>, sel: seq<nat>, k: nat)
    requires p.blockSize > 0 && k < |sel| && Indexes(sel, |slots|)
    ensures var (q, decodable) := GrowSelected(p, slots, sel, k);
            var s := slots[sel[k]];
            GrowSelected(p, slots, sel, k + 1) ==
              (Grow(q, s.requestId, TokensAfter(s)),
               if Fits(q, s.requestId, TokensAfter(s)) then decodable + [sel[k]] else decodable)
  {
    hide Fits, Grow;
  }

  lemma {:induction false} GrowSelectedTables(p: Pool, slots: seq<DecodeSlot>, sel: seq<nat>, k: nat, numBlocks: nat)
    requires Valid(p, numBlocks) && k <= |sel| && Indexes(sel, |slots|)
    ensures Valid(GrowSelected(p, slots, sel, k).0, numBlocks)
    ensures forall id: nat :: Table(p, id) <= Table(GrowSelected(p, slots, sel, k).0, id)
    ensures forall id: nat ::
              (forall j :: 0 <= j < k ==> slots[sel[j]].requestId != id) ==>
                Table(GrowSelected(p, slots, sel, k).0, id) == Table(p, id)
  {
    if k > 0 {
      GrowSelectedTables(p, slots, sel, k - 1, numBlocks);
      var q := GrowSelected(p, slots, sel, k - 1).0;
      var s := slots[sel[k - 1]];
      GrowValid(q, s.requestId, TokensAfter(s), numBlocks);
      forall id: nat
        ensures Table(q, id) <= Table(Grow(q, s.requestId, TokensAfter(s)), id)
        ensures id != s.requestId ==> Table(q, id) == Table(Grow(q, s.requestId, TokensAfter(s)), id)
      {
        GrowKeepsPrefix(q, s.requestId, TokensAfter(s), id);
      }
    }
  }

  lemma {:induction false} GrowSelectedCovers(p: Pool, slots: seq<DecodeSlot>, sel: seq<nat>, k: nat)
    requires p.blockSize > 0 && k <= |sel| && Indexes(sel, |slots|) && NoDup(sel)
    ensures NoDup(GrowSelected(p, slots, sel, k).1)
    ensures forall i: nat :: i in GrowSelected(p, slots, sel, k).1 ==> i in sel[..k]
    ensures forall i: nat :: i in GrowSelected(p, slots, sel, k).1 ==>
              Covers(Table(GrowSelected(p, slots, sel, k).0, slots[i].requestId), p.blockSize, TokensAfter(slots[i]))
  {
    if k > 0 {
      GrowSelectedCovers(p, slots, sel, k - 1);
      var (q, decodable) := GrowSelected(p, slots, sel, k - 1);
      var s := slots[sel[k - 1]];
      var q' := Grow(q, s.requestId, TokensAfter(s));
      forall i: nat | i in decodable
        ensures Covers(Table(q', slots[i].requestId), p.blockSize, TokensAfter(slots[i]))
      {
        GrowKeepsPrefix(q, s.requestId, TokensAfter(s), slots[i].requestId);
        MulMonotone(|Table(q, slots[i].requestId)|, |Table(q', slots[i].requestId)|, p.blockSize);
      }
      GrowKeepsPrefix(q, s.requestId, TokensAfter(s), s.requestId);
      assert sel[..k] == sel[..k - 1] + [sel[k - 1]];
      assert sel[k - 1] !in sel[..k - 1];
    }
  }

  // ----- taking the pending tokens

  function Took(s: DecodeSlot, eos: seq<Token>): DecodeSlot {
    if s.nextId in eos then s.(finished := true) else s.(generated := s.generated + [s.nextId])
  }

  lemma {:induction false} TakeTokensSlots(p: Pool, slots: seq<DecodeSlot>, decodable: seq<nat>, eos: seq<Token>,
                                           k: nat)
    requires p.blockSize > 0 && k <= |decodable| && Indexes(decodable, |slots|) && NoDup(decodable)
    ensures var (_, after, active) := TakeTokens(p, slots, decodable, eos, k);
            && NoDup(active)
            && (forall i: nat :: i in active <==> i in decodable[..k] && slots[i].nextId !in eos)
            && (forall i: nat :: i < |slots| ==>
                after[i] == if i in decodable[..k] then Took(slots[i], eos) else slots[i])
  {
    if k > 0 {
      TakeTokensSlots(p, slots, decodable, eos, k - 1);
      assert decodable[..k] == decodable[..k - 1] + [decodable[k - 1]];
      assert decodable[k - 1] !in decodable[..k - 1];
    }
  }

  lemma {:induction false} TakeTokensTables(p: Pool, slots: seq<DecodeSlot>, decodable: seq<nat>, eos: seq<Token>,
                                            k: nat, numBlocks: nat)
    requires Valid(p, numBlocks) && k <= |decodable| && Indexes(decodable, |slots|) && NoDup(decodable)
    ensures Valid(TakeTokens(p, slots, decodable, eos, k).0, numBlocks)
    ensures forall id: nat ::
              (forall j :: 0 <= j < k && slots[decodable[j]].nextId in eos ==> slots[decodable[j]].requestId != id)
              ==> Table(TakeTokens(p, slots, decodable, eos, k).0, id) == Table(p, id)
  {
    if k > 0 {
      TakeTokensTables(p, slots, decodable, eos, k - 1, numBlocks);
      TakeTokensSlots(p, slots, decodable, eos, k - 1);
      var (q, after, _) := TakeTokens(p, slots, decodable, eos, k - 1);
      var s := after[decodable[k - 1]];
      assert decodable[k - 1] !in decodable[..k - 1];
      var tokens := s.promptLen + |s.generated|;
      TrimValid(q, s.requestId, tokens, numBlocks);
      forall id: nat | id != s.requestId
        ensures Table(Trim(q, s.requestId, tokens), id) == Table(q, id)
      {
        TrimKeepsPrefix(q, s.requestId, tokens, id);
      }
    }
  }

  lemma {:induction false} AdvanceSlots(slots: seq<DecodeSlot>, active: seq<nat>, next: seq<Token>, k: nat)
    requires k <= |active| == |next| && Indexes(active, |slots|) && NoDup(active)
    ensures forall i: nat :: i < |slots| && i !in active[..k] ==> Advance(slots, active, next, k)[i] == slots[i]
    ensures forall r :: 0 <= r < k ==>
              Advance(slots, active, next, k)[active[r]] ==
                slots[active[r]].(nextId := next[r], decodeStep := slots[active[r]].decodeStep + 1)
  {
    if k > 0 {
      AdvanceSlots(slots, active, next, k - 1);
      assert active[..k] == active[..k - 1] + [active[k - 1]];
      assert active[k - 1] !in active[..k - 1];
    }
  }

  // ----- the forward pass

  function Ones(n: nat): (lens: seq<nat>)
    ensures |lens| == n
  {
    seq(n, _ => 1)
  }

  /** A row of the decode metadata fits its table once the block of its position exists. */
  lemma DecodeRowFits(p: Pool, numBlocks: nat, id: nat, len: nat, step: nat, tok: Token, cols: nat)
    requires Valid(p, numBlocks) && DecodeRowOk(Table(p, id), len, p.blockSize, numBlocks, step)
    ensures Covers(Table(p, id), p.blockSize, len + step + 1)
    ensures var slot := LookupSlot(Table(p, id), p.blockSize, len + step);
            var row := Row(PadTable(Table(p, id), cols), len + step, [Embedding(tok)], [len + step], [slot]);
            RowFits(row, Table(p, id), p.blockSize, numBlocks, 1)
  {
    TableInPool(p, id, numBlocks);
    CoveredBlock(Table(p, id), p.blockSize, len + step);
  }

  /** It does when the table covers the position. */
  lemma DecodeRowExists(p: Pool, numBlocks: nat, id: nat, len: nat, step: nat)
    requires Valid(p, numBlocks) && Covers(Table(p, id), p.blockSize, len + step + 1)
    ensures DecodeRowOk(Table(p, id), len, p.blockSize, numBlocks, step)
  {
    var t := Table(p, id);
    TableInPool(p, id, numBlocks);
    CoveredBlock(t, p.blockSize, len + step);
    assert t[(len + step) / p.blockSize] in t;
    PositionInCapacity(t, p.blockSize, numBlocks, len + step);
  }

  /** A covered position lies below the pool's capacity, since the table repeats no block. */
  lemma PositionInCapacity(t: seq<nat>, bs: nat, numBlocks: nat, pos: nat)
    requires bs > 0 && InPool(t, numBlocks) && Covers(t, bs, pos + 1)
    ensures pos + 1 <= numBlocks * bs
  {
    NoDupSetSize(t);
    BoundedSetSize(Elements(t), numBlocks);
    MulMonotone(|t|, numBlocks, bs);
  }

  lemma {:induction false} BoundedSetSize(s: set<nat>, n: nat)
    requires forall b :: b in s ==> 1 <= b < n
    ensures |s| <= n
  {
    if n > 0 {
      BoundedSetSize(s - {n - 1}, n - 1);
    } else {
      assert s == {};
    }
  }

  /** The requests of a single-token pass, each with the block its position needs. */
  ghost predicate Placed(p: Pool, numBlocks: nat, ids: seq<nat>, lens: seq<nat>, step: nat, toks: seq<Token>) {
    && p.blockSize > 0 && Valid(p, numBlocks) && NoDup(ids) && |ids| == |lens| == |toks|
    && DecodeStepOk(Tables(p, ids), lens, p.blockSize, numBlocks, step)
  }

  lemma ForwardFits(p: Pool, numBlocks: nat, ids: seq<nat>, lens: seq<nat>, step: nat, toks: seq<Token>)
    requires Placed(p, numBlocks, ids, lens, step, toks)
    ensures p.blockSize > 0
    ensures var m := DecodeMetadata(Tables(p, ids), lens, p.blockSize, step);
            BatchFits(DecodeRows(m, lens, step, toks), Tables(p, ids), Ones(|ids|), p.blockSize, numBlocks)
  {
    hide DecodeRowOk, RowFits, LookupSlot;
    var tables := Tables(p, ids);
    var rows := DecodeRows(DecodeMetadata(tables, lens, p.blockSize, step), lens, step, toks);
    forall r | 0 <= r < |ids|
      ensures RowFits(rows[r], tables[r], p.blockSize, numBlocks, 1)
    {
      assert DecodeRowOk(tables[r], lens[r], p.blockSize, numBlocks, step);
      DecodeRowFits(p, numBlocks, ids[r], lens[r], step, toks[r], MaxOf(Lengths(tables)));
    }
    forall r, s | 0 <= r < s < |rows|
      ensures Apart(tables[r], tables[s]) && Apart(tables[s], tables[r])
    {
      TablesApart(p, ids[r], ids[s], numBlocks);
      TablesApart(p, ids[s], ids[r], numBlocks);
    }
  }

  /** The forward pass caches a pending token behind its own context, if that is cached, and chooses the token
      greedy decoding would choose, whatever the other rows of the batch hold. */
  lemma ForwardEncodes(net: Network, p: Pool, kv: seq<Kv>, numBlocks: nat, ids: seq<nat>, lens: seq<nat>, step: nat,
                       toks: seq<Token>, r: nat, ctx: seq<Item>)
    requires Placed(p, numBlocks, ids, lens, step, toks) && |kv| == numBlocks * p.blockSize && r < |ids|
    requires |ctx| == lens[r] + step && Cached(net, p, kv, ids[r], ctx)
    ensures var m := DecodeMetadata(Tables(p, ids), lens, p.blockSize, step);
            var kv' := WriteRows(net, kv, p.blockSize, DecodeRows(m, lens, step, toks), |ids|);
            && Cached(net, p, kv', ids[r], ctx + [Embedding(toks[r])])
            && NextIds(net, kv', p.blockSize, m)[r] == NextToken(net, ctx + [Embedding(toks[r])])
  {
    hide BlockPool.Valid, WriteRows, Read, Encode;
    ForwardFits(p, numBlocks, ids, lens, step, toks);
    var tables := Tables(p, ids);
    var m := DecodeMetadata(tables, lens, p.blockSize, step);
    var rows := DecodeRows(m, lens, step, toks);
    WriteRowsEncodes(net, kv, p.blockSize, numBlocks, rows, tables, Ones(|ids|), |ids|, r, ctx);
    assert rows[r].items[..1] == [Embedding(toks[r])];
    var kv' := WriteRows(net, kv, p.blockSize, rows, |ids|);
    assert RowFits(rows[r], tables[r], p.blockSize, numBlocks, 1);
    ReadThroughPrefix(net, kv', tables[r], m.blockTables[r], p.blockSize, |ctx| + 1);
  }

  /** What a request outside the batch has cached stays cached. */
  lemma ForwardFrame(net: Network, p: Pool, kv: seq<Kv>, numBlocks: nat, ids: seq<nat>, lens: seq<nat>, step: nat,
                     toks: seq<Token>, id: nat, items: seq<Item>)
    requires Placed(p, numBlocks, ids, lens, step, toks) && id !in ids && Cached(net, p, kv, id, items)
    ensures var m := DecodeMetadata(Tables(p, ids), lens, p.blockSize, step);
            Cached(net, p, WriteRows(net, kv, p.blockSize, DecodeRows(m, lens, step, toks), |ids|), id, items)
  {
    ForwardFits(p, numBlocks, ids, lens, step, toks);
    var tables := Tables(p, ids);
    forall r | 0 <= r < |ids|
      ensures Apart(tables[r], Table(p, id))
    {
      TablesApart(p, ids[r], id, numBlocks);
    }
    hide BlockPool.Valid, WriteRows, Read, DecodeStepOk;
    var rows := DecodeRows(DecodeMetadata(tables, lens, p.blockSize, step), lens, step, toks);
    WriteRowsFrame(net, kv, p.blockSize, numBlocks, rows, tables, Ones(|ids|), |ids|, Table(p, id), |items|);
  }

  // ----- one slot of a step

  ghost predicate AllSound(net: Network, eos: seq<Token>, maxNew: nat, p: Pool, kv: seq<Kv>, prompts: seq<seq<Item>>,
                           slots: seq<DecodeSlot>)
    requires p.blockSize > 0
  {
    && |prompts| == |slots|
    && DistinctIds(slots)
    && forall i :: 0 <= i < |slots| ==> Sound(net, eos, maxNew, p, kv, prompts[i], slots[i])
  }

  lemma SoundFrame(net: Network, eos: seq<Token>, maxNew: nat, p: Pool, q: Pool, kv: seq<Kv>, prompt: seq<Item>,
                   s: DecodeSlot)
    requires 0 < p.blockSize == q.blockSize && Table(p, s.requestId) <= Table(q, s.requestId)
    requires Sound(net, eos, maxNew, p, kv, prompt, s)
    ensures Sound(net, eos, maxNew, q, kv, prompt, s)
  {
    if !s.finished {
      CachedFrame(net, p, q, kv, s.requestId, Context(prompt, s));
    }
  }

  lemma FinishedSound(net: Network, eos: seq<Token>, maxNew: nat, p: Pool, kv: seq<Kv>, prompt: seq<Item>,
                      s: DecodeSlot)
    requires p.blockSize > 0 && Ready(net, eos, maxNew, p, kv, prompt, s)
    requires s.nextId in eos || s.decodeStep == maxNew
    ensures GreedyComplete(net, eos, prompt, maxNew, s.generated)
  {
  }

  lemma EndedSound(net: Network, eos: seq<Token>, maxNew: nat, p: Pool, q: Pool, kv: seq<Kv>, prompt: seq<Item>,
                   s: DecodeSlot)
    requires 0 < p.blockSize == q.blockSize && Sound(net, eos, maxNew, p, kv, prompt, s)
    requires !s.finished && s.nextId in eos
    ensures Sound(net, eos, maxNew, q, kv, prompt, s.(finished := true))
  {
    FinishedSound(net, eos, maxNew, p, kv, prompt, s);
  }

  lemma SoundIsCached(net: Network, eos: seq<Token>, maxNew: nat, p: Pool, kv: seq<Kv>, prompt: seq<Item>,
                      s: DecodeSlot)
    requires p.blockSize > 0 && Sound(net, eos, maxNew, p, kv, prompt, s) && !s.finished
    ensures Cached(net, p, kv, s.requestId, Context(prompt, s))
    ensures Covers(Table(p, s.requestId), p.blockSize, s.promptLen + |s.generated|)
  {
  }

  /** The slots about to give their token: unfinished, at this step, with room for the token. */
  ghost predicate Grown(p: Pool, slots: seq<DecodeSlot>, step: nat, decodable: seq<nat>) {
    && p.blockSize > 0 && Indexes(decodable, |slots|) && NoDup(decodable)
    && forall j: nat :: j in decodable ==> j < |slots| && GrownSlot(p, slots[j], step)
  }

  ghost predicate GrownSlot(p: Pool, s: DecodeSlot, step: nat) {
    TakesPart(s, step) && Covers(Table(p, s.requestId), p.blockSize, TokensAfter(s))
  }

  /** What growing leaves behind, whatever the slots hold. */
  lemma AfterGrow(numBlocks: nat, c: Cache, slots: seq<DecodeSlot>, step: nat)
    requires c.pool.blockSize > 0 && Valid(c.pool, numBlocks)
    ensures var (p, decodable) := Decodable(c, slots, step); Valid(p, numBlocks) && Grown(p, slots, step, decodable)
    ensures forall id: nat :: Table(c.pool, id) <= Table(Decodable(c, slots, step).0, id)
    ensures forall id: nat :: (forall i :: 0 <= i < |slots| ==> slots[i].requestId != id)
              ==> Table(Decodable(c, slots, step).0, id) == Table(c.pool, id)
  {
    hide Covers, GrowSelected, Forward;
    var sel := Forward(slots, step, |slots|);
    ForwardIsSelection(slots, step, |slots|);
    GrowSelectedTables(c.pool, slots, sel, |sel|, numBlocks);
    GrowSelectedCovers(c.pool, slots, sel, |sel|);
    assert sel[..|sel|] == sel;
  }

  lemma GrownSound(net: Network, numBlocks: nat, c: Cache, slots: seq<DecodeSlot>, step: nat, maxNew: nat,
                   eos: seq<Token>,
                   prompt: seq<Item>, i: nat)
    requires c.pool.blockSize > 0 && Valid(c.pool, numBlocks) && i < |slots|
    requires Sound(net, eos, maxNew, c.pool, c.kv, prompt, slots[i])
    ensures Sound(net, eos, maxNew, Decodable(c, slots, step).0, c.kv, prompt, slots[i])
  {
    hide Sound, BlockPool.Valid, Decodable;
    AfterGrow(numBlocks, c, slots, step);
    SoundFrame(net, eos, maxNew, c.pool, Decodable(c, slots, step).0, c.kv, prompt, slots[i]);
  }

  lemma TakeKeepsOthers(p: Pool, numBlocks: nat, slots: seq<DecodeSlot>, decodable: seq<nat>, eos: seq<Token>, id: nat)
    requires Valid(p, numBlocks) && Indexes(decodable, |slots|) && NoDup(decodable)
    requires forall i :: 0 <= i < |slots| ==> slots[i].requestId != id
    ensures Table(Taken(p, slots, decodable, eos).0, id) == Table(p, id)
  {
    TakeTokensTables(p, slots, decodable, eos, |decodable|, numBlocks);
  }

  /** Only a slot that ends gives blocks back. */
  lemma TakenTable(p: Pool, numBlocks: nat, slots: seq<DecodeSlot>, decodable: seq<nat>, eos: seq<Token>, i: nat)
    requires Valid(p, numBlocks) && Indexes(decodable, |slots|) && NoDup(decodable) && DistinctIds(slots) && i < |slots|
    ensures Valid(Taken(p, slots, decodable, eos).0, numBlocks)
    ensures (i !in decodable || slots[i].nextId !in eos)
        ==> Table(Taken(p, slots, decodable, eos).0, slots[i].requestId) == Table(p, slots[i].requestId)
  {
    hide BlockPool.Valid, TakeTokens;
    TakeTokensTables(p, slots, decodable, eos, |decodable|, numBlocks);
    if i !in decodable || slots[i].nextId !in eos {
      forall j | 0 <= j < |decodable| && slots[decodable[j]].nextId in eos
        ensures slots[decodable[j]].requestId != slots[i].requestId
      {
        assert decodable[j] in decodable;
        assert decodable[j] < i || i < decodable[j];
      }
    }
  }

  lemma TakenShape(p: Pool, slots: seq<DecodeSlot>, decodable: seq<nat>, eos: seq<Token>, i: nat)
    requires p.blockSize > 0 && Indexes(decodable, |slots|) && NoDup(decodable) && i < |slots|
    ensures var (_, taken, active) := Taken(p, slots, decodable, eos);
            && NoDup(active)
            && (i in active <==> i in decodable && slots[i].nextId !in eos)
            && taken[i] == if i in decodable then Took(slots[i], eos) else slots[i]
  {
    TakeTokensSlots(p, slots, decodable, eos, |decodable|);
    assert decodable[..|decodable|] == decodable;
  }

  /** The requests of the forward batch: distinct, and none of a slot outside it. */
  lemma ActiveIds(p: Pool, slots: seq<DecodeSlot>, decodable: seq<nat>, eos: seq<Token>)
    requires p.blockSize > 0 && Indexes(decodable, |slots|) && NoDup(decodable) && DistinctIds(slots)
    ensures var (_, taken, active) := Taken(p, slots, decodable, eos);
            && NoDup(active) && NoDup(Ids(taken, active))
            && (forall i: nat :: i < |slots| ==> taken[i].requestId == slots[i].requestId)
            && forall i: nat :: i < |slots| && i !in active ==> slots[i].requestId !in Ids(taken, active)
  {
    TakeTokensSlots(p, slots, decodable, eos, |decodable|);
    hide TakeTokens;
    var (_, taken, active) := Taken(p, slots, decodable, eos);
    forall i: nat | i < |slots|
      ensures taken[i].requestId == slots[i].requestId
    {
      TakenShape(p, slots, decodable, eos, i);
    }
    forall r, s | 0 <= r < s < |active|
      ensures Ids(taken, active)[r] != Ids(taken, active)[s]
    {
      assert active[r] < active[s] || active[s] < active[r];
    }
    forall i: nat, r | i < |slots| && i !in active && 0 <= r < |active|
      ensures Ids(taken, active)[r] != slots[i].requestId
    {
      assert active[r] in active;
      assert active[r] < i || i < active[r];
    }
  }

  /** The pool, the memory and the slots after the forward pass and the advance. */
  ghost function AfterForward(net: Network, p: Pool, kv: seq<Kv>, slots: seq<DecodeSlot>, step: nat, eos: seq<Token>,
                              decodable: seq<nat>): (r: (Pool, seq<Kv>, seq<DecodeSlot>))
    requires p.blockSize > 0 && Indexes(decodable, |slots|)
    ensures r.0.blockSize == p.blockSize && |r.1| == |kv| && |r.2| == |slots|
  {
    var (q, taken, active) := Taken(p, slots, decodable, eos);
    var (kv', next) := ForwardActive(net, q, kv, taken, active, step, PendingTokens(taken, active));
    (q, kv', Advance(taken, active, next, |active|))
  }

  /** The forward batch of a step, ready to run. */
  ghost predicate Forwardable(numBlocks: nat, p: Pool, kv: seq<Kv>, slots: seq<DecodeSlot>, step: nat, eos: seq<Token>,
                              decodable: seq<nat>)
  {
    && p.blockSize > 0 && Valid(p, numBlocks) && |kv| == numBlocks * p.blockSize
    && DistinctIds(slots) && Grown(p, slots, step, decodable)
    && var (q, taken, active) := Taken(p, slots, decodable, eos);
       DecodeStepOk(Tables(q, Ids(taken, active)), PromptLens(taken, active), q.blockSize, numBlocks, step)
  }

  lemma ForwardPlaced(numBlocks: nat, p: Pool, kv: seq<Kv>, slots: seq<DecodeSlot>, step: nat, eos: seq<Token>,
                      decodable: seq<nat>)
    requires Forwardable(numBlocks, p, kv, slots, step, eos, decodable)
    ensures var (q, taken, active) := Taken(p, slots, decodable, eos);
            && Placed(q, numBlocks, Ids(taken, active), PromptLens(taken, active), step, PendingTokens(taken, active))
            && |kv| == numBlocks * q.blockSize
  {
    hide Taken, DecodeStepOk, BlockPool.Valid, Grown;
    assert Indexes(decodable, |slots|) && NoDup(decodable) by { GrownIndexes(p, slots, step, decodable); }
    ActiveIds(p, slots, decodable, eos);
    TakenValid(p, numBlocks, slots, decodable, eos);
  }

  lemma GrownIndexes(p: Pool, slots: seq<DecodeSlot>, step: nat, decodable: seq<nat>)
    requires Grown(p, slots, step, decodable)
    ensures Indexes(decodable, |slots|) && NoDup(decodable)
  {
  }

  lemma TakenValid(p: Pool, numBlocks: nat, slots: seq<DecodeSlot>, decodable: seq<nat>, eos: seq<Token>)
    requires Valid(p, numBlocks) && Indexes(decodable, |slots|) && NoDup(decodable)
    ensures Valid(Taken(p, slots, decodable, eos).0, numBlocks)
  {
    hide BlockPool.Valid;
    TakeTokensTables(p, slots, decodable, eos, |decodable|, numBlocks);
  }

  /** Advancing an active slot: stored, extended, its next choice read: ready again. */
  lemma AdvancedReady(net: Network, eos: seq<Token>, maxNew: nat, p: Pool, kv: seq<Kv>, q: Pool, kv': seq<Kv>,
                      prompt: seq<Item>, s: DecodeSlot, next: Token)
    requires p.blockSize > 0 && q.blockSize > 0
    requires Ready(net, eos, maxNew, p, kv, prompt, s) && s.decodeStep < maxNew && s.nextId !in eos
    requires Cached(net, q, kv', s.requestId, Context(prompt, s) + [Embedding(s.nextId)])
    requires next == NextToken(net, Context(prompt, s) + [Embedding(s.nextId)])
    ensures Ready(net, eos, maxNew, q, kv', prompt,
                  s.(generated := s.generated + [s.nextId], nextId := next, decodeStep := s.decodeStep + 1))
  {
    var g := s.generated + [s.nextId];
    assert Context(prompt, s) + [Embedding(s.nextId)] == prompt + Embed(g);
    GreedyPrefixExtend(net, eos, prompt, s.generated, s.nextId);
  }

  /** The slot `i` is sound. */
  ghost predicate SlotSound(net: Network, eos: seq<Token>, maxNew: nat, prompt: seq<Item>, i: nat,
                            r: (Pool, seq<Kv>, seq<DecodeSlot>))
  {
    r.0.blockSize > 0 && i < |r.2| && Sound(net, eos, maxNew, r.0, r.1, prompt, r.2[i])
  }

  /** An active sound slot: cached up to its pending token, which it has just given. */
  lemma ActiveContext(net: Network, numBlocks: nat, p: Pool, kv: seq<Kv>, slots: seq<DecodeSlot>, step: nat,
                      maxNew: nat,
                      eos: seq<Token>, prompt: seq<Item>, decodable: seq<nat>, i: nat)
    requires p.blockSize > 0 && Valid(p, numBlocks) && DistinctIds(slots) && Grown(p, slots, step, decodable)
    requires i < |slots|
    requires Sound(net, eos, maxNew, p, kv, prompt, slots[i]) && i in Taken(p, slots, decodable, eos).2
    ensures var (q, taken, _) := Taken(p, slots, decodable, eos);
            && !slots[i].finished && slots[i].nextId !in eos && Ready(net, eos, maxNew, p, kv, prompt, slots[i])
            && slots[i].decodeStep == step
            && taken[i] == slots[i].(generated := slots[i].generated + [slots[i].nextId])
            && |Context(prompt, slots[i])| == taken[i].promptLen + step
            && Cached(net, q, kv, taken[i].requestId, Context(prompt, slots[i]))
            && Covers(Table(q, taken[i].requestId), p.blockSize, taken[i].promptLen + step + 1)
  {
    hide Taken, BlockPool.Valid, Covers, Cached, GreedyPrefix;
    TakenShape(p, slots, decodable, eos, i);
    TakenTable(p, numBlocks, slots, decodable, eos, i);
    assert GrownSlot(p, slots[i], step);
    CachedFrame(net, p, Taken(p, slots, decodable, eos).0, kv, slots[i].requestId, Context(prompt, slots[i]));
  }

  lemma ActiveAfterStep(net: Network, numBlocks: nat, p: Pool, kv: seq<Kv>, slots: seq<DecodeSlot>, step: nat,
                        maxNew: nat,
                        eos: seq<Token>, prompt: seq<Item>, decodable: seq<nat>, r: nat)
    requires Forwardable(numBlocks, p, kv, slots, step, eos, decodable) && step < maxNew
    requires r < |Taken(p, slots, decodable, eos).2|
    requires Sound(net, eos, maxNew, p, kv, prompt, slots[Taken(p, slots, decodable, eos).2[r]])
    ensures SlotSound(net, eos, maxNew, prompt, Taken(p, slots, decodable, eos).2[r],
                      AfterForward(net, p, kv, slots, step, eos, decodable))
  {
    hide Taken, BlockPool.Valid, Covers, Cached, Grown, DecodeStepOk, DecodeMetadata, WriteRows, Advance, Placed,
         DistinctIds,
         GreedyPrefix, GreedyComplete;
    GrownIndexes(p, slots, step, decodable);
    ForwardPlaced(numBlocks, p, kv, slots, step, eos, decodable);
    ActiveIds(p, slots, decodable, eos);
    var (q, taken, active) := Taken(p, slots, decodable, eos);
    var i := active[r];
    assert active[r] in active;
    ActiveContext(net, numBlocks, p, kv, slots, step, maxNew, eos, prompt, decodable, i);
    var (toks, lens) := (PendingTokens(taken, active), PromptLens(taken, active));
    ForwardEncodes(net, q, kv, numBlocks, Ids(taken, active), lens, step, toks, r, Context(prompt, slots[i]));
    var (kv', next) := ForwardActive(net, q, kv, taken, active, step, toks);
    AdvanceSlots(taken, active, next, |active|);
    AdvancedReady(net, eos, maxNew, p, kv, q, kv', prompt, slots[i], next[r]);
    assert Advance(taken, active, next, |active|)[active[r]] == taken[i].(nextId := next[r], decodeStep := step + 1);
  }

  lemma RestingAfterStep(net: Network, numBlocks: nat, p: Pool, kv: seq<Kv>, slots: seq<DecodeSlot>, step: nat,
                         maxNew: nat,
                         eos: seq<Token>, prompt: seq<Item>, decodable: seq<nat>, i: nat)
    requires Forwardable(numBlocks, p, kv, slots, step, eos, decodable)
    requires i < |slots| && i !in Taken(p, slots, decodable, eos).2 && Sound(net, eos, maxNew, p, kv, prompt, slots[i])
    ensures SlotSound(net, eos, maxNew, prompt, i, AfterForward(net, p, kv, slots, step, eos, decodable))
  {
    RestingTaken(net, numBlocks, p, kv, slots, step, maxNew, eos, prompt, decodable, i);
    hide Taken, BlockPool.Valid, Covers, Cached, Grown, DecodeStepOk, DecodeMetadata, WriteRows, Advance, Placed,
         DistinctIds,
         GreedyPrefix, GreedyComplete, Ids;
    GrownIndexes(p, slots, step, decodable);
    ForwardPlaced(numBlocks, p, kv, slots, step, eos, decodable);
    ActiveIds(p, slots, decodable, eos);
    var (q, taken, active) := Taken(p, slots, decodable, eos);
    var (toks, lens) := (PendingTokens(taken, active), PromptLens(taken, active));
    var next := ForwardActive(net, q, kv, taken, active, step, toks).1;
    AdvanceSlots(taken, active, next, |active|);
    assert active[..|active|] == active;
    if !taken[i].finished {
      ForwardFrame(net, q, kv, numBlocks, Ids(taken, active), lens, step, toks, taken[i].requestId,
                   Context(prompt, taken[i]));
    }
  }

  /** A slot that does not become active is sound once the pending tokens are taken. */
  lemma RestingTaken(net: Network, numBlocks: nat, p: Pool, kv: seq<Kv>, slots: seq<DecodeSlot>, step: nat, maxNew: nat,
                     eos: seq<Token>, prompt: seq<Item>, decodable: seq<nat>, i: nat)
    requires p.blockSize > 0 && Valid(p, numBlocks) && DistinctIds(slots) && Grown(p, slots, step, decodable)
    requires i < |slots|
    requires Sound(net, eos, maxNew, p, kv, prompt, slots[i]) && i !in Taken(p, slots, decodable, eos).2
    ensures var (q, taken, _) := Taken(p, slots, decodable, eos);
            && Sound(net, eos, maxNew, q, kv, prompt, taken[i])
            && (i in decodable ==> taken[i].finished) && (i !in decodable ==> taken[i] == slots[i])
  {
    hide Taken, BlockPool.Valid, Covers, Sound;
    TakenShape(p, slots, decodable, eos, i);
    TakenTable(p, numBlocks, slots, decodable, eos, i);
    var q := Taken(p, slots, decodable, eos).0;
    if i in decodable {
      assert GrownSlot(p, slots[i], step);
      EndedSound(net, eos, maxNew, p, q, kv, prompt, slots[i]);
    } else {
      SoundFrame(net, eos, maxNew, p, q, kv, prompt, slots[i]);
    }
  }

  // ----- the losing branch

  /** The guard of the branch that loses step: an allocation was refused while every slot that did
      get its block ends the sequence, so no forward pass runs and the refused slots are moved on. */
  ghost predicate Bumps(c: Cache, slots: seq<DecodeSlot>, step: nat, maxNew: nat, eos: seq<Token>)
    requires c.pool.blockSize > 0
  {
    var decodable := Decodable(c, slots, step).1;
    && step < maxNew
    && decodable != []
    && (forall i :: i in decodable ==> i < |slots| && slots[i].nextId in eos)
    && exists i :: 0 <= i < |slots| && TakesPart(slots[i], step) && i !in decodable
  }

  /** The slot is one of those the losing branch moves on without a token. */
  ghost predicate Loses(c: Cache, slots: seq<DecodeSlot>, step: nat, maxNew: nat, eos: seq<Token>, i: nat)
    requires c.pool.blockSize > 0
  {
    && Bumps(c, slots, step, maxNew, eos)
    && i < |slots| && TakesPart(slots[i], step) && i !in Decodable(c, slots, step).1
  }

  lemma {:induction false} NothingGrown(p: Pool, slots: seq<DecodeSlot>, sel: seq<nat>, k: nat)
    requires p.blockSize > 0 && k <= |sel| && Indexes(sel, |slots|)
    requires GrowSelected(p, slots, sel, k).1 == []
    ensures GrowSelected(p, slots, sel, k).0 == p
  {
    if k > 0 {
      NothingGrown(p, slots, sel, k - 1);
    }
  }

  /** When every allocation is refused the step changes nothing at all. */
  lemma StepRefused(net: Network, numBlocks: nat, c: Cache, slots: seq<DecodeSlot>, step: nat, maxNew: nat,
                    eos: seq<Token>)
    requires c.pool.blockSize > 0 && step < maxNew && eos != [] && Decodable(c, slots, step).1 == []
    ensures DecodeAtStep(net, numBlocks, c, slots, step, maxNew, eos) == StepResult(true, c, slots)
  {
    NothingGrown(c.pool, slots, Forward(slots, step, |slots|), |Forward(slots, step, |slots|)|);
  }

  lemma StepEnds(net: Network, numBlocks: nat, c: Cache, slots: seq<DecodeSlot>, step: nat, maxNew: nat,
                 eos: seq<Token>)
    requires c.pool.blockSize > 0 && slots != [] && step < maxNew && eos != []
    requires Decodable(c, slots, step).1 != []
    requires Taken(Decodable(c, slots, step).0, slots, Decodable(c, slots, step).1, eos).2 == []
    ensures var (q, taken, _) := Taken(Decodable(c, slots, step).0, slots, Decodable(c, slots, step).1, eos);
            DecodeAtStep(net, numBlocks, c, slots, step, maxNew, eos) ==
              StepResult(true, Cache(q, c.kv), BumpAll(taken, step))
  {
    hide Decodable, Taken;
  }

  /** The branch without a forward pass is taken when all slots that got their block end. */
  lemma AllEnding(p: Pool, slots: seq<DecodeSlot>, decodable: seq<nat>, eos: seq<Token>)
    requires p.blockSize > 0 && Indexes(decodable, |slots|) && NoDup(decodable)
    ensures Taken(p, slots, decodable, eos).2 == []
       <==> forall j: nat :: j in decodable ==> j < |slots| && slots[j].nextId in eos
  {
    var active := Taken(p, slots, decodable, eos).2;
    TakeTokensSlots(p, slots, decodable, eos, |decodable|);
    assert decodable[..|decodable|] == decodable;
    NoDupSetSize(active);
    if forall j: nat :: j in decodable ==> j < |slots| && slots[j].nextId in eos {
      assert Elements(active) == {};
    } else {
      var j: nat :| j in decodable && !(j < |slots| && slots[j].nextId in eos);
      assert j in active;
    }
  }

  /** Moving a waiting slot on without a token takes it off its path. */
  lemma BumpedUnsound(net: Network, eos: seq<Token>, maxNew: nat, p: Pool, kv: seq<Kv>, q: Pool, kv': seq<Kv>,
                      prompt: seq<Item>, s: DecodeSlot)
    requires p.blockSize > 0 && q.blockSize > 0 && Sound(net, eos, maxNew, p, kv, prompt, s) && !s.finished
    ensures !Sound(net, eos, maxNew, q, kv', prompt, s.(decodeStep := s.decodeStep + 1))
  {
  }

  /** A sound slot in a step without a forward pass. */
  lemma SlotWithoutForward(net: Network, numBlocks: nat, c: Cache, slots: seq<DecodeSlot>, step: nat, maxNew: nat,
                           eos: seq<Token>, prompt: seq<Item>, i: nat)
    requires ValidCache(c, numBlocks) && c.pool.blockSize > 0 && DistinctIds(slots) && i < |slots| && step < maxNew
    requires eos != []
    requires Sound(net, eos, maxNew, c.pool, c.kv, prompt, slots[i])
    requires Decodable(c, slots, step).1 != []
    requires Taken(Decodable(c, slots, step).0, slots, Decodable(c, slots, step).1, eos).2 == []
    ensures var r := DecodeAtStep(net, numBlocks, c, slots, step, maxNew, eos);
            Sound(net, eos, maxNew, r.cache.pool, r.cache.kv, prompt, r.slots[i]) <==>
              !Loses(c, slots, step, maxNew, eos, i)
  {
    hide Sound, Taken, Decodable, BlockPool.Valid, DecodeAtStep, Covers;
    var (p, decodable) := Decodable(c, slots, step);
    AfterGrow(numBlocks, c, slots, step);
    GrownSound(net, numBlocks, c, slots, step, maxNew, eos, prompt, i);
    RestingTaken(net, numBlocks, p, c.kv, slots, step, maxNew, eos, prompt, decodable, i);
    StepEnds(net, numBlocks, c, slots, step, maxNew, eos);
    AllEnding(p, slots, decodable, eos);
    if Loses(c, slots, step, maxNew, eos, i) {
      var q := Taken(p, slots, decodable, eos).0;
      BumpedUnsound(net, eos, maxNew, q, c.kv, q, c.kv, prompt, slots[i]);
    }
  }

  /** A sound slot in a step with a forward pass that succeeds. */
  lemma SlotWithForward(net: Network, numBlocks: nat, c: Cache, slots: seq<DecodeSlot>, step: nat, maxNew: nat,
                        eos: seq<Token>, prompt: seq<Item>, i: nat)
    requires ValidCache(c, numBlocks) && c.pool.blockSize > 0 && DistinctIds(slots) && i < |slots| && step < maxNew
    requires eos != []
    requires Sound(net, eos, maxNew, c.pool, c.kv, prompt, slots[i])
    requires Decodable(c, slots, step).1 != []
    requires Taken(Decodable(c, slots, step).0, slots, Decodable(c, slots, step).1, eos).2 != []
    requires DecodeAtStep(net, numBlocks, c, slots, step, maxNew, eos).ok
    ensures var r := DecodeAtStep(net, numBlocks, c, slots, step, maxNew, eos);
            Sound(net, eos, maxNew, r.cache.pool, r.cache.kv, prompt, r.slots[i])
    ensures !Bumps(c, slots, step, maxNew, eos)
  {
    hide Sound, Taken, Decodable, BlockPool.Valid, Covers, DecodeStepOk, ForwardActive, Advance;
    var (p, decodable) := Decodable(c, slots, step);
    AfterGrow(numBlocks, c, slots, step);
    GrownSound(net, numBlocks, c, slots, step, maxNew, eos, prompt, i);
    AllEnding(p, slots, decodable, eos);
    var active := Taken(p, slots, decodable, eos).2;
    if i in active {
      var r :| 0 <= r < |active| && active[r] == i;
      ActiveAfterStep(net, numBlocks, p, c.kv, slots, step, maxNew, eos, prompt, decodable, r);
    } else {
      RestingAfterStep(net, numBlocks, p, c.kv, slots, step, maxNew, eos, prompt, decodable, i);
    }
  }

  /** What decides over a slot is its own fate: whatever the other slots of the batch hold, a step that succeeds
      keeps a sound slot sound if and only if the losing branch does not move that slot on. */
  lemma SlotSoundIff(net: Network, numBlocks: nat, c: Cache, slots: seq<DecodeSlot>, step: nat, maxNew: nat,
                     eos: seq<Token>,
                     prompt: seq<Item>, i: nat)
    requires ValidCache(c, numBlocks) && c.pool.blockSize > 0 && DistinctIds(slots) && i < |slots|
    requires Sound(net, eos, maxNew, c.pool, c.kv, prompt, slots[i])
    requires !slots[i].finished ==> slots[i].decodeStep == step
    requires DecodeAtStep(net, numBlocks, c, slots, step, maxNew, eos).ok
    ensures var r := DecodeAtStep(net, numBlocks, c, slots, step, maxNew, eos);
            Sound(net, eos, maxNew, r.cache.pool, r.cache.kv, prompt, r.slots[i]) <==>
              !Loses(c, slots, step, maxNew, eos, i)
  {
    if step >= maxNew {
      BudgetSpent(net, numBlocks, c, slots, step, maxNew, eos, prompt, i);
    } else {
      hide Sound, Taken, Decodable, BlockPool.Valid, DecodeTaken;
      var (p, decodable) := Decodable(c, slots, step);
      if decodable == [] {
        StepRefused(net, numBlocks, c, slots, step, maxNew, eos);
      } else if Taken(p, slots, decodable, eos).2 == [] {
        SlotWithoutForward(net, numBlocks, c, slots, step, maxNew, eos, prompt, i);
      } else {
        SlotWithForward(net, numBlocks, c, slots, step, maxNew, eos, prompt, i);
      }
    }
  }

  lemma BudgetSpent(net: Network, numBlocks: nat, c: Cache, slots: seq<DecodeSlot>, step: nat, maxNew: nat,
                    eos: seq<Token>,
                    prompt: seq<Item>, i: nat)
    requires c.pool.blockSize > 0 && i < |slots| && step >= maxNew
    requires Sound(net, eos, maxNew, c.pool, c.kv, prompt, slots[i])
    requires !slots[i].finished ==> slots[i].decodeStep == step
    ensures var r := DecodeAtStep(net, numBlocks, c, slots, step, maxNew, eos);
            r.ok && Sound(net, eos, maxNew, r.cache.pool, r.cache.kv, prompt, r.slots[i])
  {
    hide GreedyComplete, GreedyPrefix, Cached;
    if !slots[i].finished {
      FinishedSound(net, eos, maxNew, c.pool, c.kv, prompt, slots[i]);
    }
  }

  // ----- the whole step

  /** The input every caller in the scheduler supplies: sound slots that share one step. */
  ghost predicate StepInput(net: Network, numBlocks: nat, c: Cache, slots: seq<DecodeSlot>, step: nat, maxNew: nat,
                            eos: seq<Token>, prompts: seq<seq<Item>>)
  {
    && ValidCache(c, numBlocks)
    && eos != []
    && AllSound(net, eos, maxNew, c.pool, c.kv, prompts, slots)
    && forall i :: 0 <= i < |slots| && !slots[i].finished ==> slots[i].decodeStep == step
  }

  ghost predicate SameIds(a: seq<DecodeSlot>, b: seq<DecodeSlot>) {
    |a| == |b| && forall i :: 0 <= i < |a| ==> a[i].requestId == b[i].requestId
  }

  /** The step is right: it succeeds, every slot is sound again, and the cache stays partitioned. */
  ghost predicate StepRight(net: Network, numBlocks: nat, slots: seq<DecodeSlot>, maxNew: nat, eos: seq<Token>,
                            prompts: seq<seq<Item>>, r: StepResult)
  {
    && r.ok
    && ValidCache(r.cache, numBlocks)
    && SameIds(slots, r.slots)
    && AllSound(net, eos, maxNew, r.cache.pool, r.cache.kv, prompts, r.slots)
  }

  /** A batch of sound slots never fails: all positions of its forward pass have their blocks. */
  lemma StepSucceeds(net: Network, numBlocks: nat, c: Cache, slots: seq<DecodeSlot>, step: nat, maxNew: nat,
                     eos: seq<Token>,
                     prompts: seq<seq<Item>>)
    requires c.pool.blockSize > 0 && StepInput(net, numBlocks, c, slots, step, maxNew, eos, prompts)
    ensures DecodeAtStep(net, numBlocks, c, slots, step, maxNew, eos).ok
  {
    hide Sound, Taken, Decodable, BlockPool.Valid, Covers, DecodeStepOk, ForwardActive, Advance;
    if slots != [] && step < maxNew {
      var (p, decodable) := Decodable(c, slots, step);
      AfterGrow(numBlocks, c, slots, step);
      var (q, taken, active) := Taken(p, slots, decodable, eos);
      forall r | 0 <= r < |active|
        ensures DecodeRowOk(Tables(q, Ids(taken, active))[r], PromptLens(taken, active)[r], q.blockSize, numBlocks,
                            step)
      {
        var i := active[r];
        assert active[r] in active;
        GrownSound(net, numBlocks, c, slots, step, maxNew, eos, prompts[i], i);
        ActiveContext(net, numBlocks, p, c.kv, slots, step, maxNew, eos, prompts[i], decodable, i);
        TakenValid(p, numBlocks, slots, decodable, eos);
        DecodeRowExists(q, numBlocks, taken[i].requestId, taken[i].promptLen, step);
      }
      RowsExist(Tables(q, Ids(taken, active)), PromptLens(taken, active), q.blockSize, numBlocks, step);
    }
  }

  lemma RowsExist(tables: seq<seq<nat>>, lens: seq<nat>, bs: nat, numBlocks: nat, step: nat)
    requires bs > 0 && |tables| == |lens|
    requires forall r :: 0 <= r < |tables| ==> DecodeRowOk(tables[r], lens[r], bs, numBlocks, step)
    ensures DecodeStepOk(tables, lens, bs, numBlocks, step)
  {
    hide DecodeRowOk;
  }

  /** Slots in place and a valid cache leave only soundness to show. */
  lemma RightWhenSound(net: Network, numBlocks: nat, slots: seq<DecodeSlot>, maxNew: nat, eos: seq<Token>,
                       prompts: seq<seq<Item>>, r: StepResult)
    requires r.ok && r.cache.pool.blockSize > 0 && ValidCache(r.cache, numBlocks) && |prompts| == |slots|
    requires DistinctIds(slots) && SameIds(slots, r.slots)
    ensures StepRight(net, numBlocks, slots, maxNew, eos, prompts, r)
       <==> forall i :: 0 <= i < |slots| ==> Sound(net, eos, maxNew, r.cache.pool, r.cache.kv, prompts[i], r.slots[i])
  {
    hide Sound, BlockPool.Valid;
  }

  /** A decode step keeps all its sequences on the greedy path exactly when it does not take the
      losing branch. */
  lemma StepRightIff(net: Network, numBlocks: nat, c: Cache, slots: seq<DecodeSlot>, step: nat, maxNew: nat,
                     eos: seq<Token>,
                     prompts: seq<seq<Item>>)
    requires StepInput(net, numBlocks, c, slots, step, maxNew, eos, prompts)
    ensures StepRight(net, numBlocks, slots, maxNew, eos, prompts,
                      DecodeAtStep(net, numBlocks, c, slots, step, maxNew, eos))
       <==> !Bumps(c, slots, step, maxNew, eos)
  {
    assert c.pool.blockSize > 0;
    StepSucceeds(net, numBlocks, c, slots, step, maxNew, eos, prompts);
    StepPartitions(net, numBlocks, c, slots, step, maxNew, eos);
    hide Sound, BlockPool.Valid, DecodeAtStep, Decodable;
    var r := DecodeAtStep(net, numBlocks, c, slots, step, maxNew, eos);
    forall i: nat | i < |slots|
      ensures r.slots[i].requestId == slots[i].requestId
      ensures Sound(net, eos, maxNew, r.cache.pool, r.cache.kv, prompts[i], r.slots[i])
         <==> !Loses(c, slots, step, maxNew, eos, i)
    {
      StepProgress(net, numBlocks, c, slots, step, maxNew, eos, i);
      SlotSoundIff(net, numBlocks, c, slots, step, maxNew, eos, prompts[i], i);
    }
    RightWhenSound(net, numBlocks, slots, maxNew, eos, prompts, r);
    SomebodyLoses(c, slots, step, maxNew, eos);
  }

  /** The branch is a losing one for somebody. */
  lemma SomebodyLoses(c: Cache, slots: seq<DecodeSlot>, step: nat, maxNew: nat, eos: seq<Token>)
    requires c.pool.blockSize > 0
    ensures Bumps(c, slots, step, maxNew, eos) <==> exists i: nat :: Loses(c, slots, step, maxNew, eos, i)
  {
    hide Decodable;
    if Bumps(c, slots, step, maxNew, eos) {
      var i: nat :| i < |slots| && TakesPart(slots[i], step) && i !in Decodable(c, slots, step).1;
      assert Loses(c, slots, step, maxNew, eos, i);
    }
  }

  // ----- other requests, and all runs, sound or not

  /** What a request outside the batch has cached survives the step, whatever the batch holds. */
  lemma StepKeepsOthers(net: Network, numBlocks: nat, c: Cache, slots: seq<DecodeSlot>, step: nat, maxNew: nat,
                        eos: seq<Token>, id: nat, items: seq<Item>)
    requires ValidCache(c, numBlocks) && c.pool.blockSize > 0 && DistinctIds(slots)
    requires DecodeAtStep(net, numBlocks, c, slots, step, maxNew, eos).ok
    requires forall i :: 0 <= i < |slots| ==> slots[i].requestId != id
    requires Cached(net, c.pool, c.kv, id, items)
    ensures var r := DecodeAtStep(net, numBlocks, c, slots, step, maxNew, eos);
            Table(r.cache.pool, id) == Table(c.pool, id) && Cached(net, r.cache.pool, r.cache.kv, id, items)
  {
    hide BlockPool.Valid, Covers, Cached, Taken, Decodable, DecodeStepOk, Advance, DecodeMetadata, WriteRows;
    if slots != [] && step < maxNew && eos != [] {
      AfterGrow(numBlocks, c, slots, step);
      var (p, decodable) := Decodable(c, slots, step);
      CachedFrame(net, c.pool, p, c.kv, id, items);
      if decodable != [] {
        TakeKeepsOthers(p, numBlocks, slots, decodable, eos, id);
        var (q, taken, active) := Taken(p, slots, decodable, eos);
        CachedFrame(net, p, q, c.kv, id, items);
        if active != [] {
          ForwardPlaced(numBlocks, p, c.kv, slots, step, eos, decodable);
          ActiveIds(p, slots, decodable, eos);
          var ids := Ids(taken, active);
          forall r | 0 <= r < |ids|
            ensures ids[r] != id
          {
            assert ids[r] == slots[active[r]].requestId;
          }
          ForwardFrame(net, q, c.kv, numBlocks, ids, PromptLens(taken, active), step, PendingTokens(taken, active), id,
                       items);
        }
      }
    }
  }

  lemma SelectionDistinct(c: Cache, slots: seq<DecodeSlot>, step: nat)
    requires c.pool.blockSize > 0
    ensures NoDup(Decodable(c, slots, step).1)
    ensures forall i: nat :: i in Decodable(c, slots, step).1 ==> i < |slots| && TakesPart(slots[i], step)
  {
    var sel := Forward(slots, step, |slots|);
    ForwardIsSelection(slots, step, |slots|);
    GrowSelectedCovers(c.pool, slots, sel, |sel|);
    assert sel[..|sel|] == sel;
  }

  /** Whatever the slots hold, the blocks stay partitioned and other requests keep their tables. */
  lemma StepPartitions(net: Network, numBlocks: nat, c: Cache, slots: seq<DecodeSlot>, step: nat, maxNew: nat,
                       eos: seq<Token>)
    requires ValidCache(c, numBlocks)
    ensures var r := DecodeAtStep(net, numBlocks, c, slots, step, maxNew, eos);
            && ValidCache(r.cache, numBlocks)
            && forall id: nat ::
                 (forall i :: 0 <= i < |slots| ==> slots[i].requestId != id) ==>
                   Table(r.cache.pool, id) == Table(c.pool, id)
  {
    var sel := Forward(slots, step, |slots|);
    GrowSelectedTables(c.pool, slots, sel, |sel|, numBlocks);
    SelectionDistinct(c, slots, step);
    var (p, decodable) := Decodable(c, slots, step);
    TakeTokensTables(p, slots, decodable, eos, |decodable|, numBlocks);
    var r := DecodeAtStep(net, numBlocks, c, slots, step, maxNew, eos);
    forall id: nat | forall i :: 0 <= i < |slots| ==> slots[i].requestId != id
      ensures Table(r.cache.pool, id) == Table(c.pool, id)
    {
      TakeKeepsOthers(p, numBlocks, slots, decodable, eos, id);
    }
  }

  /** How far a slot is from the end of its budget. */
  function Weight(s: DecodeSlot, maxNew: nat): nat {
    if s.finished || s.decodeStep > maxNew then 0 else maxNew + 1 - s.decodeStep
  }

  /** A successful step moves every decodable slot closer to its end and no slot away from it. */
  lemma StepProgress(net: Network, numBlocks: nat, c: Cache, slots: seq<DecodeSlot>, step: nat, maxNew: nat,
                     eos: seq<Token>, i: nat)
    requires c.pool.blockSize > 0 && i < |slots|
    ensures var r := DecodeAtStep(net, numBlocks, c, slots, step, maxNew, eos);
            && r.slots[i].requestId == slots[i].requestId
            && r.slots[i].promptLen == slots[i].promptLen
            && (r.ok ==> Weight(r.slots[i], maxNew) <= Weight(slots[i], maxNew))
            && (r.ok && step < maxNew && i in Decodable(c, slots, step).1 ==>
                Weight(r.slots[i], maxNew) < Weight(slots[i], maxNew))
  {
    SelectionDistinct(c, slots, step);
    var (p, decodable) := Decodable(c, slots, step);
    TakenShape(p, slots, decodable, eos, i);
    var (q, taken, active) := Taken(p, slots, decodable, eos);
    if slots != [] && step < maxNew && eos != [] && decodable != [] && active != [] {
      var next := ForwardActive(net, q, c.kv, taken, active, step, PendingTokens(taken, active)).1;
      AdvancedShape(taken, active, next, i);
    }
  }

  lemma AdvancedShape(slots: seq<DecodeSlot>, active: seq<nat>, next: seq<Token>, i: nat)
    requires |active| == |next| && Indexes(active, |slots|) && NoDup(active) && i < |slots|
    ensures i !in active ==> Advance(slots, active, next, |active|)[i] == slots[i]
    ensures i in active ==>
              exists r :: 0 <= r < |active| &&
                Advance(slots, active, next, |active|)[i] ==
                  slots[i].(nextId := next[r], decodeStep := slots[i].decodeStep + 1)
  {
    AdvanceSlots(slots, active, next, |active|);
    assert active[..|active|] == active;
    if i in active {
      var r :| 0 <= r < |active| && active[r] == i;
      assert Advance(slots, active, next, |active|)[active[r]] ==
        slots[i].(nextId := next[r], decodeStep := slots[i].decodeStep + 1);
    }
  }
}
