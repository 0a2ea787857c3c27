/** The block allocator of the paged KV cache, on values: what each operation of
    `PagedBlockManager` does to the free list and to the block tables of the requests. */
module BlockPool {
  import opened Prelude

  datatype Pool = Pool(blockSize: nat, free: seq<nat>, tables: map<nat, seq<nat>>)

  function Table(p: Pool, id: nat): seq<nat> {
    if id in p.tables then p.tables[id] else []
  }

  function Needed(p: Pool, id: nat, tokens: nat): nat
    requires p.blockSize > 0
  {
    Max(0, DivCeil(tokens, p.blockSize) - |Table(p, id)|)
  }

  predicate Fits(p: Pool, id: nat, tokens: nat)
    requires p.blockSize > 0
  {
    Needed(p, id, tokens) <= |p.free|
  }

  /** Growing takes the missing blocks from the front of the free list; a refusal changes nothing. */
  function Grow(p: Pool, id: nat, tokens: nat): Pool
    requires p.blockSize > 0
  {
    var n := Needed(p, id, tokens);
    if n == 0 || n > |p.free| then p
    else p.(free := p.free[n..], tables := p.tables[id := Table(p, id) + p.free[..n]])
  }

  /** Blocks go back to the end of the free list last block first, never block 0. */
  function Returned(free: seq<nat>, blocks: seq<nat>): seq<nat>
    decreases |blocks|
  {
    if blocks == [] then free else
      var k := |blocks| - 1;
      Returned(if blocks[k] != 0 then free + [blocks[k]] else free, blocks[..k])
  }

  function Trim(p: Pool, id: nat, tokens: nat): Pool
    requires p.blockSize > 0
  {
    var required := DivCeil(tokens, p.blockSize);
    if id !in p.tables || required >= |p.tables[id]| then p
    else
      p.(free := Returned(p.free, p.tables[id][required..]),
         tables := p.tables[id := p.tables[id][..required]])
  }

  function Release(p: Pool, id: nat): Pool {
    if id !in p.tables then p
    else p.(free := Returned(p.free, p.tables[id]), tables := p.tables - {id})
  }

  function Fresh(numBlocks: nat, blockSize: nat): Pool {
    Pool(blockSize, seq(if numBlocks == 0 then 0 else numBlocks - 1, i requires i >= 0 => i + 1), map[])
  }

  // ----- the partition invariant

  ghost predicate Owns(p: Pool, id: nat, b: nat) {
    id in p.tables && b in p.tables[id]
  }

  /** The free list and the tables partition the blocks `1..numBlocks`: no block is listed twice,
      none is lost, and the padding block 0 is never handed out. */
  ghost predicate Valid(p: Pool, numBlocks: nat) {
    && p.blockSize > 0
    && NoDup(p.free)
    && (forall id :: id in p.tables ==> NoDup(p.tables[id]))
    && (forall b :: b in p.free ==> 1 <= b < numBlocks)
    && (forall id: nat, b: nat :: Owns(p, id, b) ==> 1 <= b < numBlocks && b !in p.free)
    && (forall id: nat, id': nat, b: nat :: Owns(p, id, b) && Owns(p, id', b) ==> id == id')
    && (forall b: nat :: 1 <= b < numBlocks && b !in p.free ==> exists id: nat :: Owns(p, id, b))
  }

  lemma FreshValid(numBlocks: nat, blockSize: nat)
    requires blockSize > 0
    ensures Valid(Fresh(numBlocks, blockSize), numBlocks)
  {
    var p := Fresh(numBlocks, blockSize);
    forall b: nat | 1 <= b < numBlocks
      ensures b in p.free
    {
      assert p.free[b - 1] == b;
    }
  }

  lemma GrowValid(p: Pool, id: nat, tokens: nat, numBlocks: nat)
    requires Valid(p, numBlocks)
    ensures Valid(Grow(p, id, tokens), numBlocks)
  {
    var q := Grow(p, id, tokens);
    if q != p {
      var n := Needed(p, id, tokens);
      var taken := p.free[..n];
      SplitNoDup(p.free, n);
      assert q.tables[id] == Table(p, id) + taken;
      OwnersAfterGrow(p, q, id, taken);
      forall b: nat | b in Table(p, id)
        ensures b !in taken
      {
        assert Owns(p, id, b);
      }
      JoinNoDup(Table(p, id), taken);
      forall b: nat | 1 <= b < numBlocks && b !in q.free
        ensures exists i: nat :: Owns(q, i, b)
      {
        if b in taken {
          assert Owns(q, id, b);
        } else {
          var i: nat :| Owns(p, i, b);
          assert Owns(q, i, b);
        }
      }
    }
  }

  lemma OwnersAfterGrow(p: Pool, q: Pool, id: nat, taken: seq<nat>)
    requires q.tables == p.tables[id := Table(p, id) + taken]
    ensures forall i: nat, b: nat :: Owns(q, i, b) <==> Owns(p, i, b) || (i == id && b in taken)
  {
  }

  lemma SplitNoDup(s: seq<nat>, n: nat)
    requires NoDup(s) && n <= |s|
    ensures NoDup(s[..n]) && NoDup(s[n..])
    ensures forall b :: b in s <==> b in s[..n] || b in s[n..]
    ensures forall b :: b in s[..n] ==> b !in s[n..]
  {
    assert s == s[..n] + s[n..];
  }

  lemma JoinNoDup(s: seq<nat>, t: seq<nat>)
    requires NoDup(s) && NoDup(t)
    requires forall b :: b in s ==> b !in t
    ensures NoDup(s + t)
  {
    forall i, j | 0 <= i < j < |s + t|
      ensures (s + t)[i] != (s + t)[j]
    {
      if i < |s| <= j {
        assert s[i] in s && t[j - |s|] in t;
      }
    }
  }

  lemma {:induction false} ReturnedBlocks(free: seq<nat>, blocks: seq<nat>)
    requires NoDup(free) && NoDup(blocks)
    requires forall b :: b in blocks ==> b != 0 && b !in free
    ensures NoDup(Returned(free, blocks))
    ensures forall b :: b in Returned(free, blocks) <==> b in free || b in blocks
    ensures |Returned(free, blocks)| == |free| + |blocks|
    decreases |blocks|
  {
    if blocks != [] {
      var k := |blocks| - 1;
      assert blocks == blocks[..k] + [blocks[k]];
      SplitNoDup(blocks, k);
      assert blocks[k] in blocks[k..];
      ReturnedBlocks(free + [blocks[k]], blocks[..k]);
    }
  }

  lemma TrimValid(p: Pool, id: nat, tokens: nat, numBlocks: nat)
    requires Valid(p, numBlocks)
    ensures Valid(Trim(p, id, tokens), numBlocks)
  {
    var q := Trim(p, id, tokens);
    if q != p {
      var required := DivCeil(tokens, p.blockSize);
      var removed := p.tables[id][required..];
      SplitNoDup(p.tables[id], required);
      forall b: nat | b in removed
        ensures Owns(p, id, b)
      {
      }
      ReturnedBlocks(p.free, removed);
      forall i: nat, b: nat
        ensures Owns(q, i, b) <==> Owns(p, i, b) && !(i == id && b in removed)
      {
      }
      forall b: nat | 1 <= b < numBlocks && b !in q.free
        ensures exists i: nat :: Owns(q, i, b)
      {
        var i: nat :| Owns(p, i, b);
        assert Owns(q, i, b);
      }
    }
  }

  lemma ReleaseValid(p: Pool, id: nat, numBlocks: nat)
    requires Valid(p, numBlocks)
    ensures Valid(Release(p, id), numBlocks)
    ensures |Release(p, id).free| == |p.free| + |Table(p, id)|
  {
    if id in p.tables {
      var q := Release(p, id);
      forall b: nat | b in p.tables[id]
        ensures Owns(p, id, b)
      {
      }
      ReturnedBlocks(p.free, p.tables[id]);
      forall i: nat, b: nat
        ensures Owns(q, i, b) <==> Owns(p, i, b) && i != id
      {
      }
      forall b: nat | 1 <= b < numBlocks && b !in q.free
        ensures exists i: nat :: Owns(q, i, b)
      {
        var i: nat :| Owns(p, i, b);
        assert Owns(q, i, b);
      }
    }
  }

  // ----- exactly how much

  /** `k` blocks hold `tokens` tokens, and one fewer would not. */
  ghost predicate LeastBlocks(k: nat, tokens: nat, bs: nat) {
    && tokens <= k * bs
    && forall j: nat :: j < k ==> j * bs < tokens
  }

  lemma LeastBlocksIs(k: nat, tokens: nat, bs: nat)
    requires bs > 0
    ensures LeastBlocks(k, tokens, bs) <==> k == DivCeil(tokens, bs)
  {
    var d := DivCeil(tokens, bs);
    forall j: nat
      ensures j * bs < tokens <==> j < d
    {
      DivCeilLeast(tokens, bs, j);
    }
    DivCeilLeast(tokens, bs, k);
  }

  /** The other requests hold what they held. */
  ghost predicate OthersHold(p: Pool, q: Pool, id: nat) {
    q.blockSize == p.blockSize && forall other: nat :: other != id ==> Table(q, other) == Table(p, other)
  }

  /** A granted growth appends free blocks, from the front of the free list, up to the least number that holds the
      tokens; a table that is long enough stays as it is, and a growth that is not granted changes nothing. */
  lemma GrowExact(p: Pool, id: nat, tokens: nat, k: nat)
    requires p.blockSize > 0 && LeastBlocks(k, tokens, p.blockSize)
    ensures Fits(p, id, tokens) <==> k <= |Table(p, id)| + |p.free|
    ensures OthersHold(p, Grow(p, id, tokens), id)
    ensures var (q, held) := (Grow(p, id, tokens), |Table(p, id)|);
            if k <= held || k > held + |p.free| then q == p
            else Table(q, id) == Table(p, id) + p.free[..k - held] && q.free == p.free[k - held..]
  {
    LeastBlocksIs(k, tokens, p.blockSize);
  }

  function Backwards(s: seq<nat>): (r: seq<nat>)
    ensures |r| == |s|
  {
    seq(|s|, j requires 0 <= j < |s| => s[|s| - 1 - j])
  }

  /** The pool `q` is `p` with the table of `id` cut to its first `n` blocks, and what was cut off at the end of the
      free list, last block first. */
  ghost predicate CutTo(p: Pool, q: Pool, id: nat, n: nat) {
    && n <= |Table(p, id)|
    && OthersHold(p, q, id)
    && Table(q, id) == Table(p, id)[..n]
    && q.free == p.free + Backwards(Table(p, id)[n..])
  }

  /** Trimming leaves the least number of blocks that hold the tokens, or what there was if that is less. */
  lemma TrimExact(p: Pool, id: nat, tokens: nat, k: nat, numBlocks: nat)
    requires Valid(p, numBlocks) && LeastBlocks(k, tokens, p.blockSize)
    ensures CutTo(p, Trim(p, id, tokens), id, Min(k, |Table(p, id)|))
  {
    hide Valid, LeastBlocks, Backwards, Returned;
    ValidSize(p, numBlocks);
    LeastBlocksIs(k, tokens, p.blockSize);
    if id in p.tables && k < |p.tables[id]| {
      ReturnedCut(p, id, k, numBlocks);
    } else {
      NothingCut(p, id);
    }
  }

  lemma ValidSize(p: Pool, numBlocks: nat)
    requires Valid(p, numBlocks)
    ensures p.blockSize > 0
  {
  }

  lemma NothingCut(p: Pool, id: nat)
    ensures CutTo(p, p, id, |Table(p, id)|)
  {
    assert Backwards(Table(p, id)[|Table(p, id)|..]) == [];
  }

  /** Freeing a request leaves it nothing. */
  lemma ReleaseExact(p: Pool, id: nat, numBlocks: nat)
    requires Valid(p, numBlocks)
    ensures CutTo(p, Release(p, id), id, 0)
  {
    hide Valid, Backwards, Returned;
    if id in p.tables {
      ReturnedCut(p, id, 0, numBlocks);
      assert p.tables[id][0..] == p.tables[id];
    } else {
      NothingCut(p, id);
    }
  }

  lemma ReturnedCut(p: Pool, id: nat, k: nat, numBlocks: nat)
    requires Valid(p, numBlocks) && id in p.tables && k <= |p.tables[id]|
    ensures Returned(p.free, p.tables[id][k..]) == p.free + Backwards(p.tables[id][k..])
  {
    forall b | b in p.tables[id][k..]
      ensures b != 0
    {
      assert Owns(p, id, b);
    }
    ReturnedAll(p.free, p.tables[id][k..]);
  }

  lemma {:induction false} ReturnedAll(free: seq<nat>, blocks: seq<nat>)
    requires forall b :: b in blocks ==> b != 0
    ensures Returned(free, blocks) == free + Backwards(blocks)
    decreases |blocks|
  {
    if blocks == [] {
      assert Backwards(blocks) == [];
    } else {
      var k := |blocks| - 1;
      assert blocks[k] in blocks;
      assert forall b :: b in blocks[..k] ==> b in blocks;
      ReturnedAll(free + [blocks[k]], blocks[..k]);
      assert Backwards(blocks) == [blocks[k]] + Backwards(blocks[..k]);
    }
  }

  /** A cut table frees as many blocks as it loses. */
  lemma CutFree(p: Pool, q: Pool, id: nat, n: nat)
    requires CutTo(p, q, id, n)
    ensures |q.free| + n == |p.free| + |Table(p, id)| && |Table(q, id)| == n
  {
  }

  /** Trimming back to what a table held exactly undoes a growth: every request has its old blocks again, and as many
      blocks are free. */
  lemma TrimUndoesGrow(p: Pool, id: nat, tokens: nat, more: nat, numBlocks: nat)
    requires Valid(p, numBlocks) && LeastBlocks(|Table(p, id)|, tokens, p.blockSize)
    ensures var q := Trim(Grow(p, id, more), id, tokens);
            (forall other: nat :: Table(q, other) == Table(p, other)) && |q.free| == |p.free|
  {
    hide Valid, LeastBlocks, Trim, Grow, Backwards;
    ValidSize(p, numBlocks);
    var (k, q) := (DivCeil(more, p.blockSize), Grow(p, id, more));
    LeastBlocksIs(k, more, p.blockSize);
    GrowExact(p, id, more, k);
    GrowValid(p, id, more, numBlocks);
    TrimExact(q, id, tokens, |Table(p, id)|, numBlocks);
    CutFree(q, Trim(q, id, tokens), id, |Table(p, id)|);
  }

  /** The operations a client of the manager can perform. */
  datatype Op = GrowOp(id: nat, tokens: nat) | TrimOp(id: nat, tokens: nat) | ReleaseOp(id: nat)

  function Apply(p: Pool, op: Op): (q: Pool)
    requires p.blockSize > 0
    ensures q.blockSize == p.blockSize
  {
    match op
    case GrowOp(id, tokens) => Grow(p, id, tokens)
    case TrimOp(id, tokens) => Trim(p, id, tokens)
    case ReleaseOp(id) => Release(p, id)
  }

  function Run(p: Pool, ops: seq<Op>): (q: Pool)
    requires p.blockSize > 0
    ensures q.blockSize == p.blockSize
  {
    if ops == [] then p else Apply(Run(p, ops[..|ops| - 1]), ops[|ops| - 1])
  }

  /** Whatever is done with a new manager, its blocks stay partitioned. */
  lemma {:induction false} EveryRunPartitions(numBlocks: nat, blockSize: nat, ops: seq<Op>)
    requires blockSize > 0
    ensures Valid(Run(Fresh(numBlocks, blockSize), ops), numBlocks)
  {
    if ops == [] {
      FreshValid(numBlocks, blockSize);
    } else {
      EveryRunPartitions(numBlocks, blockSize, ops[..|ops| - 1]);
      var p := Run(Fresh(numBlocks, blockSize), ops[..|ops| - 1]);
      match ops[|ops| - 1]
      case GrowOp(id, tokens) => GrowValid(p, id, tokens, numBlocks);
      case TrimOp(id, tokens) => TrimValid(p, id, tokens, numBlocks);
      case ReleaseOp(id) => ReleaseValid(p, id, numBlocks);
    }
  }

  // ----- conservation

  /** The ids a pool of `n` blocks may hand out. */
  function BlockIds(n: nat): (ids: set<nat>)
    ensures forall b :: b in ids <==> 1 <= b < n
    ensures |ids| == if n == 0 then 0 else n - 1
  {
    if n <= 1 then {} else BlockIds(n - 1) + {n - 1}
  }

  /** Blocks held by the listed requests. */
  function Held(p: Pool, ids: seq<nat>): nat {
    if ids == [] then 0 else Held(p, ids[..|ids| - 1]) + |Table(p, ids[|ids| - 1])|
  }

  lemma {:induction false} HeldUnaffected(p: Pool, q: Pool, ids: seq<nat>)
    requires forall id :: id in ids ==> Table(p, id) == Table(q, id)
    ensures Held(p, ids) == Held(q, ids)
  {
    if ids != [] {
      HeldUnaffected(p, q, ids[..|ids| - 1]);
    }
  }

  /** Free and held blocks add up to the capacity when the listed requests are all the holders. */
  lemma {:induction false} Conservation(p: Pool, ids: seq<nat>, numBlocks: nat)
    requires Valid(p, numBlocks) && NoDup(ids)
    requires forall id :: id in p.tables && p.tables[id] != [] ==> id in ids
    ensures |p.free| + Held(p, ids) == if numBlocks == 0 then 0 else numBlocks - 1
    decreases |ids|
  {
    if ids == [] {
      assert forall id: nat, b: nat :: !Owns(p, id, b);
      NoDupSetSize(p.free);
      assert Elements(p.free) == BlockIds(numBlocks);
    } else {
      var k := |ids| - 1;
      var q := Release(p, ids[k]);
      ReleaseValid(p, ids[k], numBlocks);
      assert ids == ids[..k] + [ids[k]];
      Conservation(q, ids[..k], numBlocks);
      HeldUnaffected(p, q, ids[..k]);
    }
  }
}
