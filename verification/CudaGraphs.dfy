/** Replaying captured decode graphs: batches are padded to a few captured shapes, and the padding is
    invisible to every sequence in the cache. */
module CudaGraphs {
  import opened Prelude
  import opened PagedKvCache

  const CONTEXT_BUCKET_TOKENS := 256
  const MAX_BATCH := 256
  const MAX_GRAPHS := 256

  // ----- batch sizes

  const SMALL_BATCHES: seq<nat> := [1, 2, 4, 8]

  function CudaGraphBatchBucket(actualBatch: nat, maxBatch: nat): Option<nat> {
    if actualBatch == 0 || maxBatch == 0 || actualBatch > maxBatch then None
    else
      var bucket := if actualBatch <= 2 then actualBatch
                    else if actualBatch <= 4 then 4
                    else if actualBatch <= 8 then 8
                    else DivCeil(actualBatch, 16) * 16;
      Some(Min(bucket, maxBatch))
  }

  function PrewarmBatchLimit(maxBatch: nat): nat { Min(maxBatch, MAX_BATCH) }

  /** The batch sizes graphs are captured for. */
  ghost predicate IsBatchBucket(b: nat, limit: nat) {
    1 <= b <= limit && (b == 1 || b == 2 || b == 4 || b == 8 || b % 16 == 0 || b == limit)
  }

  ghost predicate Ascending(s: seq<nat>) {
    forall i, j :: 0 <= i < j < |s| ==> s[i] < s[j]
  }

  method CudaGraphBatchBuckets(maxBatch: nat) returns (out: seq<nat>)
    ensures Ascending(out)
    ensures forall b: nat :: b in out <==> IsBatchBucket(b, PrewarmBatchLimit(maxBatch))
    ensures 16 * |out| <= PrewarmBatchLimit(maxBatch) + 80
  {
    var limit := PrewarmBatchLimit(maxBatch);
    if limit == 0 {
      return [];
    }
    out := [];
    for i := 0 to 4
      invariant Ascending(out) && |out| <= i
      invariant forall b: nat :: b in out <==> b <= limit && b in SMALL_BATCHES[..i]
    {
      assert SMALL_BATCHES[..i + 1] == SMALL_BATCHES[..i] + [SMALL_BATCHES[i]];
      if SMALL_BATCHES[i] <= limit {
        AppendLarger(out, SMALL_BATCHES[i]);
        out := out + [SMALL_BATCHES[i]];
      }
    }
    assert SMALL_BATCHES[..4] == SMALL_BATCHES;
    var bucket := 16;
    while bucket <= limit
      invariant bucket % 16 == 0 && 16 <= bucket
      invariant Ascending(out)
      invariant (forall b: nat :: b in out <==>
                 b <= limit && b < bucket && (b == 1 || b == 2 || b == 4 || b == 8 || (b > 0 && b % 16 == 0)))
      invariant 16 * |out| <= bucket + 48 && bucket <= limit + 16
    {
      AppendLarger(out, bucket);
      out := out + [bucket];
      bucket := bucket + 16;
    }
    if out == [] || out[|out| - 1] != limit {
      LastIsLargest(out);
      assert out != [] ==> out[|out| - 1] in out;
      AppendLarger(out, limit);
      out := out + [limit];
    }
  }

  lemma AppendLarger(out: seq<nat>, b: nat)
    requires Ascending(out) && forall c :: c in out ==> c < b
    ensures Ascending(out + [b])
  {
    var longer := out + [b];
    forall i, j | 0 <= i < j < |longer|
      ensures longer[i] < longer[j]
    {
      if j == |out| {
        assert longer[i] == out[i] && out[i] in out;
      } else {
        assert longer[i] == out[i] && longer[j] == out[j];
      }
    }
  }

  lemma LastIsLargest(out: seq<nat>)
    requires Ascending(out)
    ensures forall b :: b in out ==> b <= out[|out| - 1]
  {
    forall b | b in out
      ensures b <= out[|out| - 1]
    {
      var i :| 0 <= i < |out| && out[i] == b;
    }
  }

  /** A batch is padded to the least captured size that holds it, and to none when it is too large. */
  lemma LeastBucket(actualBatch: nat, limit: nat)
    ensures CudaGraphBatchBucket(actualBatch, limit).None? <==> actualBatch == 0 || actualBatch > limit
    ensures CudaGraphBatchBucket(actualBatch, limit).Some? ==>
              var b := CudaGraphBatchBucket(actualBatch, limit).value;
              && IsBatchBucket(b, limit) && actualBatch <= b
              && forall c: nat :: IsBatchBucket(c, limit) && actualBatch <= c ==> b <= c
  {
    if 0 < actualBatch <= limit {
      var b := CudaGraphBatchBucket(actualBatch, limit).value;
      forall c: nat | IsBatchBucket(c, limit) && actualBatch <= c
        ensures b <= c
      {
        if actualBatch > 8 && c % 16 == 0 {
          DivCeilLeast(actualBatch, 16, c / 16);
        }
      }
    }
  }

  // ----- block-table widths

  function CudaGraphBlockBucket(blockSize: nat): nat
    requires blockSize > 0
  {
    Max(DivCeil(CONTEXT_BUCKET_TOKENS, blockSize), 1)
  }

  predicate IsPowerOfTwo(n: nat) {
    n == 1 || (n > 0 && n % 2 == 0 && IsPowerOfTwo(n / 2))
  }

  function PowerFrom(p: nat, n: nat): (r: nat)
    requires p > 0
    decreases n - p
  {
    if p >= n then p else PowerFrom(2 * p, n)
  }

  function NextPowerOfTwo(n: nat): nat { PowerFrom(1, n) }

  function BucketBlockTableCols(blocks: nat, blockSize: nat): nat
    requires blockSize > 0
  {
    if blocks ==
      0 then CudaGraphBlockBucket(blockSize) else Max(NextPowerOfTwo(blocks), CudaGraphBlockBucket(blockSize))
  }

  lemma {:induction false} PowerFromLeast(p: nat, n: nat, q: nat)
    requires IsPowerOfTwo(p) && IsPowerOfTwo(q)
    ensures IsPowerOfTwo(PowerFrom(p, n)) && PowerFrom(p, n) >= n
    ensures q >= n && q >= p ==> PowerFrom(p, n) <= q
    decreases n - p
  {
    if p < n {
      PowerFromLeast(2 * p, n, q);
      PowersApart(p, q);
    }
  }

  lemma {:induction false} PowersApart(p: nat, q: nat)
    requires IsPowerOfTwo(p) && IsPowerOfTwo(q)
    ensures p < q ==> 2 * p <= q
  {
    if p > 1 && q > 1 {
      PowersApart(p / 2, q / 2);
    }
  }

  /** The least power of two that is not less. */
  lemma NextPowerLeast(n: nat, q: nat)
    requires IsPowerOfTwo(q)
    ensures IsPowerOfTwo(NextPowerOfTwo(n)) && NextPowerOfTwo(n) >= n
    ensures q >= n ==> NextPowerOfTwo(n) <= q
  {
    PowerFromLeast(1, n, q);
  }

  /** The least bucket is the least number of blocks that hold 256 tokens. */
  lemma BlockBucketLeast(blockSize: nat, k: nat)
    requires blockSize > 0
    ensures k >= CudaGraphBlockBucket(blockSize) <==> k * blockSize >= CONTEXT_BUCKET_TOKENS
  {
    DivCeilLeast(CONTEXT_BUCKET_TOKENS, blockSize, k);
    assert DivCeil(CONTEXT_BUCKET_TOKENS, blockSize) >= 1;
  }

  /** A width is large enough, and it is the least bucket or a power of two that is not twice as large as needed. */
  lemma ColumnsMean(blocks: nat, blockSize: nat)
    requires blockSize > 0
    ensures var cols := BucketBlockTableCols(blocks, blockSize);
            && cols >= blocks && cols >= CudaGraphBlockBucket(blockSize)
            && (cols == CudaGraphBlockBucket(blockSize) || (IsPowerOfTwo(cols) && cols < 2 * blocks))
  {
    var p := NextPowerOfTwo(blocks);
    NextPowerLeast(blocks, 1);
    if p > 1 && p >= 2 * blocks {
      NextPowerLeast(blocks, p / 2);
    }
  }

  predicate BucketedOnce(n: nat, blockSize: nat)
    requires blockSize > 0
  {
    var cols := BucketBlockTableCols(n, blockSize);
    BucketBlockTableCols(cols, blockSize) == cols
  }

  /** Bucketing a bucketed width changes nothing exactly if the least bucket is a power of two, as for blocks
      of 8, 16 and 32 tokens. */
  lemma ColumnsIdempotentIff(blockSize: nat)
    requires blockSize > 0
    ensures (forall n: nat :: BucketedOnce(n, blockSize)) <==> IsPowerOfTwo(CudaGraphBlockBucket(blockSize))
  {
    var least := CudaGraphBlockBucket(blockSize);
    if IsPowerOfTwo(least) {
      forall n: nat
        ensures BucketedOnce(n, blockSize)
      {
        var cols := BucketBlockTableCols(n, blockSize);
        NextPowerLeast(n, least);
        NextPowerLeast(cols, cols);
      }
    } else {
      NextPowerLeast(least, 1);
      assert BucketBlockTableCols(0, blockSize) == least;
      assert !BucketedOnce(0, blockSize);
    }
  }

  lemma UsualBlockSizes()
    ensures CudaGraphBlockBucket(8) == 32 && CudaGraphBlockBucket(16) == 16 && CudaGraphBlockBucket(32) == 8
    ensures IsPowerOfTwo(32) && IsPowerOfTwo(16) && IsPowerOfTwo(8)
  {
    assert IsPowerOfTwo(2) && IsPowerOfTwo(4);
  }

  /** Contexts of up to two buckets of tokens need one of the two prewarmed widths. */
  lemma PrewarmedWidth(blocks: nat, blockSize: nat)
    requires blockSize > 0 && IsPowerOfTwo(CudaGraphBlockBucket(blockSize))
    requires blocks <= 2 * CudaGraphBlockBucket(blockSize)
    ensures BucketBlockTableCols(blocks, blockSize) == CudaGraphBlockBucket(blockSize) ||
              BucketBlockTableCols(blocks, blockSize) == 2 * CudaGraphBlockBucket(blockSize)
  {
    var least := CudaGraphBlockBucket(blockSize);
    NextPowerLeast(blocks, 2 * least);
    PowersApart(least, NextPowerOfTwo(blocks));
  }

  // ----- captured graphs

  datatype Key = Key(batch: nat, blockTableCols: nat)

  /** The graphs captured so far; `Graph` stands for a captured graph. */
  class GraphCache<Graph> {
    var graphs: map<Key, Graph>
    var maxBatch: nat

    constructor ()
      ensures graphs == map[] && maxBatch == 0
    {
      graphs, maxBatch := map[], 0;
    }

    /** Keep a new graph; when the cache is full, some other one is dropped first. */
    method InsertCudaDecodeGraph(key: Key, graph: Graph)
      requires |graphs| <= MAX_GRAPHS
      modifies this`graphs
      ensures |graphs| <= MAX_GRAPHS && key in graphs && graphs[key] == graph
      ensures forall k :: k in graphs && k != key ==> k in old(graphs) && graphs[k] == old(graphs)[k]
      ensures |old(graphs)| < MAX_GRAPHS || key in old(graphs) ==> graphs == old(graphs)[key := graph]
    {
      if |graphs| >= MAX_GRAPHS && key !in graphs {
        assert graphs.Keys != {};
        var oldest :| oldest in graphs;
        assert (graphs - {oldest}).Keys == graphs.Keys - {oldest};
        graphs := graphs - {oldest};
      }
      assert graphs[key := graph].Keys == graphs.Keys + {key};
      graphs := graphs[key := graph];
    }

    /** Capture a graph for every batch size and the two smallest widths: none of them is dropped. */
    method PrewarmCudaDecodeGraphs(capture: Key -> Graph, configuredMax: nat, blockSize: nat) returns (captured: nat)
      requires blockSize > 0
      modifies this
      ensures configuredMax == 0 ==> captured == 0 && graphs == old(graphs)
      ensures configuredMax > 0 ==> maxBatch == PrewarmBatchLimit(configuredMax) && captured == |graphs|
      ensures configuredMax > 0 ==> forall k :: k in graphs <==> Prewarmed(k, maxBatch, blockSize)
      ensures configuredMax > 0 ==> forall k :: k in graphs ==> graphs[k] == capture(k)
    {
      if configuredMax == 0 {
        return 0;
      }
      var base := CudaGraphBlockBucket(blockSize);
      maxBatch := PrewarmBatchLimit(configuredMax);
      graphs := map[];
      captured := 0;
      var buckets := CudaGraphBatchBuckets(maxBatch);
      captured := CaptureWidth(capture, buckets, base, captured);
      captured := CaptureWidth(capture, buckets, base * 2, captured);
    }

    /** The graphs of one width. */
    method CaptureWidth(capture: Key -> Graph, buckets: seq<nat>, cols: nat, before: nat) returns (captured: nat)
      requires Ascending(buckets) && |graphs| == before && before + |buckets| <= MAX_GRAPHS
      requires forall k :: k in graphs ==> k.blockTableCols != cols
      modifies this`graphs
      ensures captured == |graphs| == before + |buckets|
      ensures forall k :: k in graphs <==> k in old(graphs) || (k.blockTableCols == cols && k.batch in buckets)
      ensures forall k :: k in graphs ==> graphs[k] == if k in old(graphs) then old(graphs)[k] else capture(k)
    {
      hide Ascending, WithWidth;
      captured := before;
      NoneWithWidth(capture, graphs, buckets, cols);
      for i := 0 to |buckets|
        invariant captured == |graphs| == before + i
        invariant WithWidth(capture, old(graphs), graphs, buckets, cols, i)
      {
        var key := Key(buckets[i], cols);
        OneMoreWidth(capture, old(graphs), graphs, buckets, cols, i);
        InsertCudaDecodeGraph(key, capture(key));
        captured := captured + 1;
      }
      AllWithWidth(capture, old(graphs), graphs, buckets, cols);
    }
  }

  /** The graphs before, and those of the first `n` batch sizes at one width. */
  ghost predicate WithWidth<Graph>(capture: Key -> Graph, before: map<Key, Graph>, graphs: map<Key, Graph>,
                                   buckets: seq<nat>, cols: nat, n: nat)
  {
    && n <= |buckets|
    && (forall k :: k in graphs <==> k in before || (k.blockTableCols == cols && k.batch in buckets[..n]))
    && forall k :: k in graphs ==> graphs[k] == if k in before then before[k] else capture(k)
  }

  lemma NoneWithWidth<Graph>(capture: Key -> Graph, before: map<Key, Graph>, buckets: seq<nat>, cols: nat)
    ensures WithWidth(capture, before, before, buckets, cols, 0)
  {
  }

  lemma OneMoreWidth<Graph>(capture: Key -> Graph, before: map<Key, Graph>, graphs: map<Key, Graph>, buckets: seq<nat>,
                            cols: nat, n: nat)
    requires WithWidth(capture, before, graphs, buckets, cols, n) && n < |buckets| && Ascending(buckets)
    requires forall k :: k in before ==> k.blockTableCols != cols
    ensures var key := Key(buckets[n], cols);
            && key !in graphs && |graphs[key := capture(key)]| == |graphs| + 1
            && WithWidth(capture, before, graphs[key := capture(key)], buckets, cols, n + 1)
  {
    var key := Key(buckets[n], cols);
    NextIsNew(buckets, n);
    hide Ascending;
    MapGrows(graphs, key, capture(key));
    var more := graphs[key := capture(key)];
    forall k: Key
      ensures k in more <==> k in before || (k.blockTableCols == cols && k.batch in buckets[..n + 1])
    {
      assert k == key <==> k.batch == buckets[n] && k.blockTableCols == cols;
    }
  }

  lemma NextIsNew(buckets: seq<nat>, n: nat)
    requires Ascending(buckets) && n < |buckets|
    ensures buckets[n] !in buckets[..n]
    ensures forall b: nat :: b in buckets[..n + 1] <==> b in buckets[..n] || b == buckets[n]
  {
    assert buckets[..n + 1] == buckets[..n] + [buckets[n]];
  }

  lemma MapGrows<K, V>(m: map<K, V>, key: K, value: V)
    requires key !in m
    ensures |m[key := value]| == |m| + 1
  {
    assert m[key := value].Keys == m.Keys + {key};
    assert |m.Keys| == |m| && |m[key := value].Keys| == |m[key := value]|;
  }

  lemma AllWithWidth<Graph>(capture: Key -> Graph, before: map<Key, Graph>, graphs: map<Key, Graph>, buckets: seq<nat>,
                            cols: nat)
    requires WithWidth(capture, before, graphs, buckets, cols, |buckets|)
    ensures forall k :: k in graphs <==> k in before || (k.blockTableCols == cols && k.batch in buckets)
    ensures forall k :: k in graphs ==> graphs[k] == if k in before then before[k] else capture(k)
  {
    assert buckets[..|buckets|] == buckets;
  }

  ghost predicate Prewarmed(k: Key, limit: nat, blockSize: nat)
    requires blockSize > 0
  {
    && IsBatchBucket(k.batch, limit)
    && (k.blockTableCols == CudaGraphBlockBucket(blockSize) || k.blockTableCols == CudaGraphBlockBucket(blockSize) * 2)
  }

  /** The key of a decode batch. */
  function CudaDecodeGraphKey(actualBatch: nat, maxBatch: nat, metaCols: nat, blockSize: nat): Outcome<Key>
    requires blockSize > 0
  {
    if maxBatch == 0 then Err("CUDA decode graphs are not prewarmed")
    else if actualBatch == 0 || actualBatch > maxBatch then Err("CUDA decode actual batch out of range")
    else
      var bucket := CudaGraphBatchBucket(actualBatch, maxBatch);
      if bucket.None? then Err("no batch bucket") else Ok(Key(bucket.value, BucketBlockTableCols(metaCols, blockSize)))
  }

  lemma CancelRight(a: nat, b: nat, c: nat)
    requires c > 0 && a * c <= b * c
    ensures a <= b
  {
    if a > b {
      MulMonotone(b + 1, a, c);
    }
  }

  /** Every batch within the limit whose tables have at most two buckets of tokens finds a prewarmed graph. */
  lemma BatchesHit(actualBatch: nat, limit: nat, metaCols: nat, blockSize: nat)
    requires 0 < actualBatch <= limit && blockSize > 0 && IsPowerOfTwo(CudaGraphBlockBucket(blockSize))
    requires metaCols * blockSize <= 2 * CONTEXT_BUCKET_TOKENS
    ensures var key := CudaDecodeGraphKey(actualBatch, limit, metaCols, blockSize);
            key.Ok? && Prewarmed(key.value, limit, blockSize) && key.value.batch >= actualBatch &&
              key.value.blockTableCols >= metaCols
  {
    hide CudaGraphBlockBucket, CudaGraphBatchBucket, IsPowerOfTwo;
    LeastBucket(actualBatch, limit);
    TwoBuckets(metaCols, blockSize);
    PrewarmedWidth(metaCols, blockSize);
    NextPowerLeast(metaCols, 1);
  }

  lemma TwoBuckets(metaCols: nat, blockSize: nat)
    requires blockSize > 0 && metaCols * blockSize <= 2 * CONTEXT_BUCKET_TOKENS
    ensures metaCols <= 2 * CudaGraphBlockBucket(blockSize)
  {
    MulMonotone(CONTEXT_BUCKET_TOKENS, DivCeil(CONTEXT_BUCKET_TOKENS, blockSize) * blockSize, 2);
    MulMonotone(DivCeil(CONTEXT_BUCKET_TOKENS, blockSize), CudaGraphBlockBucket(blockSize), blockSize);
    CancelRight(metaCols, 2 * CudaGraphBlockBucket(blockSize), blockSize);
  }
}
