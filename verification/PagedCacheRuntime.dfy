/** The shared cache: the block manager as the engine updates it in place, and the cache memory. */
module PagedCacheRuntime {
  import opened Prelude
  import opened Decoding
  import opened BlockPool
  import opened PagedKvCache

  class PagedBlockManager {
    const blockSize: nat
    var free: seq<nat>
    var requestBlocks: map<nat, seq<nat>>

    function View(): Pool
      reads this
    {
      Pool(blockSize, free, requestBlocks)
    }

    constructor (numBlocks: nat, blockSize: nat)
      ensures View() == Fresh(numBlocks, blockSize)
    {
      this.blockSize := blockSize;
      free := [];
      requestBlocks := map[];
      new;
      var blockId := 1;
      while blockId < numBlocks
        invariant 1 <= blockId <= Max(1, numBlocks)
        invariant free == seq(blockId - 1, i requires i >= 0 => i + 1)
        invariant requestBlocks == map[]
      {
        free := free + [blockId];
        blockId := blockId + 1;
      }
    }

    method BlocksForRequest(requestId: nat) returns (n: nat)
      ensures n == |Table(View(), requestId)|
    {
      n := if requestId in requestBlocks then |requestBlocks[requestId]| else 0;
    }

    method SlotsAvailableFor(requestId: nat, numTokens: nat) returns (available: bool)
      requires blockSize > 0
      ensures available <==> Fits(View(), requestId, numTokens)
    {
      var required: int := DivCeil(numTokens, blockSize);
      var existing := BlocksForRequest(requestId);
      available := Max(0, required - existing) <= |free|;
    }

    /** Grow an allocation to cover `numTokens`; false, and no change, when the pool is too empty. */
    method TryAllocateSlots(requestId: nat, numTokens: nat) returns (ok: bool)
      requires blockSize > 0
      modifies this
      ensures ok <==> old(Fits(View(), requestId, numTokens))
      ensures View() == Grow(old(View()), requestId, numTokens)
    {
      var required: int := DivCeil(numTokens, blockSize);
      var existing := BlocksForRequest(requestId);
      var needed := Max(0, required - existing);
      if needed == 0 {
        return true;
      }
      if needed > |free| {
        return false;
      }
      ghost var before := View();
      var entry := if requestId in requestBlocks then requestBlocks[requestId] else [];
      var taken := 0;
      while taken < needed
        invariant taken <= needed <= |before.free|
        invariant free == before.free[taken..]
        invariant entry == Table(before, requestId) + before.free[..taken]
        invariant requestBlocks == before.tables
      {
        entry := entry + [free[0]];
        free := free[1..];
        taken := taken + 1;
      }
      requestBlocks := requestBlocks[requestId := entry];
      return true;
    }

    method AllocateSlots(requestId: nat, numTokens: nat) returns (r: Outcome<()>)
      requires blockSize > 0
      modifies this
      ensures r.Ok? <==> old(Fits(View(), requestId, numTokens))
      ensures View() == Grow(old(View()), requestId, numTokens)
    {
      var ok := TryAllocateSlots(requestId, numTokens);
      r := if ok then Ok(()) else Err("paged KV cache exhausted");
    }

    method PushBack(blocks: seq<nat>)
      modifies this`free
      ensures free == Returned(old(free), blocks)
    {
      var k := |blocks|;
      assert blocks[..k] == blocks;
      while k > 0
        invariant 0 <= k <= |blocks|
        invariant Returned(free, blocks[..k]) == Returned(old(free), blocks)
      {
        k := k - 1;
        assert blocks[..k + 1][..k] == blocks[..k];
        if blocks[k] != 0 {
          free := free + [blocks[k]];
        }
      }
    }

    method TrimRequestToNumTokens(requestId: nat, numTokens: nat)
      requires blockSize > 0
      modifies this
      ensures View() == Trim(old(View()), requestId, numTokens)
    {
      var required: int := DivCeil(numTokens, blockSize);
      if requestId !in requestBlocks || required >= |requestBlocks[requestId]| {
        return;
      }
      var entry := requestBlocks[requestId];
      requestBlocks := requestBlocks[requestId := entry[..required]];
      PushBack(entry[required..]);
    }

    method FreeRequest(requestId: nat)
      modifies this
      ensures View() == Release(old(View()), requestId)
    {
      if requestId in requestBlocks {
        var blocks := requestBlocks[requestId];
        requestBlocks := requestBlocks - {requestId};
        PushBack(blocks);
      }
    }

    method FreeMany(requestIds: seq<nat>)
      modifies this
      ensures View() == ReleaseAll(old(View()), requestIds, |requestIds|)
    {
      for i := 0 to |requestIds|
        invariant View() == ReleaseAll(old(View()), requestIds, i)
      {
        FreeRequest(requestIds[i]);
      }
    }

    method BlockTablesFor(requestIds: seq<nat>) returns (r: Outcome<seq<seq<nat>>>)
      ensures r.Ok? <==> forall id :: id in requestIds ==> id in requestBlocks
      ensures r.Ok? ==> r.value == Tables(View(), requestIds)
    {
      var tables := [];
      for i := 0 to |requestIds|
        invariant forall k :: 0 <= k < i ==> requestIds[k] in requestBlocks
        invariant |tables| == i && forall k :: 0 <= k < i ==> tables[k] == Table(View(), requestIds[k])
      {
        if requestIds[i] !in requestBlocks {
          return Err("paged KV request has no allocated blocks");
        }
        tables := tables + [requestBlocks[requestIds[i]]];
      }
      r := Ok(tables);
    }
  }

  function ReleaseAll(p: Pool, ids: seq<nat>, k: nat): (q: Pool)
    requires k <= |ids|
    ensures q.blockSize == p.blockSize
  {
    if k == 0 then p else Release(ReleaseAll(p, ids, k - 1), ids[k - 1])
  }

  function Tables(p: Pool, ids: seq<nat>): (tables: seq<seq<nat>>)
    ensures |tables| == |ids|
  {
    seq(|ids|, i requires 0 <= i < |ids| => Table(p, ids[i]))
  }

  lemma {:induction false} ReleaseAllValid(p: Pool, ids: seq<nat>, k: nat, numBlocks: nat)
    requires Valid(p, numBlocks) && k <= |ids|
    ensures Valid(ReleaseAll(p, ids, k), numBlocks)
    ensures forall id :: id in ReleaseAll(p, ids, k).tables <==> id in p.tables && id !in ids[..k]
    ensures forall id :: id !in ids[..k] ==> Table(ReleaseAll(p, ids, k), id) == Table(p, id)
  {
    if k > 0 {
      ReleaseAllValid(p, ids, k - 1, numBlocks);
      ReleaseValid(ReleaseAll(p, ids, k - 1), ids[k - 1], numBlocks);
      assert ids[..k] == ids[..k - 1] + [ids[k - 1]];
    }
  }

  /** Allocator and memory of one cache, as a value. */
  datatype Cache = Cache(pool: Pool, kv: seq<Kv>)

  ghost predicate ValidCache(c: Cache, numBlocks: nat) {
    Valid(c.pool, numBlocks) && |c.kv| == numBlocks * c.pool.blockSize
  }

  class PagedCacheRuntime {
    const cache: PagedKvCache
    const manager: PagedBlockManager

    function View(): Cache
      reads manager, cache
    {
      Cache(manager.View(), cache.kv)
    }

    /** Manager and memory describe one pool, and the manager's blocks are partitioned. */
    ghost predicate Valid()
      reads manager, cache
    {
      && cache.blockSize == manager.blockSize
      && ValidCache(View(), cache.numBlocks)
    }

    /** The pool is created zero-filled; two blocks at least, one of them for padding. */
    constructor (net: Network, numBlocks: nat, blockSize: nat)
      requires numBlocks > 1 && blockSize in {8, 16, 32}
      ensures fresh(manager) && fresh(cache) && Valid()
      ensures cache.numBlocks == numBlocks && manager.View() == Fresh(numBlocks, blockSize)
    {
      cache := new PagedKvCache.NewPool(net, blockSize, numBlocks);
      manager := new PagedBlockManager(numBlocks, blockSize);
      new;
      FreshValid(numBlocks, blockSize);
    }
  }
}
