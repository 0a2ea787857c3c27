/** Micro-batches of audio chunks: bounded by count and by total duration, in the order given, and as few
    as those bounds allow. Durations are exact sample counts. */
module ChunkGrouping {
  import opened Prelude

  function Samples(lens: seq<nat>, group: seq<nat>): nat
    requires forall k :: 0 <= k < |group| ==> group[k] < |lens|
  {
    if group == [] then 0 else Samples(lens, group[..|group| - 1]) + lens[group[|group| - 1]]
  }

  /** The samples of a group are those of its chunks, added up. */
  lemma {:induction false} SamplesAdd(lens: seq<nat>, a: seq<nat>, b: seq<nat>)
    requires (forall k :: 0 <= k < |a| ==> a[k] < |lens|) && forall k :: 0 <= k < |b| ==> b[k] < |lens|
    ensures Samples(lens, a + b) == Samples(lens, a) + Samples(lens, b)
    ensures forall i: nat :: b == [i] ==> Samples(lens, b) == lens[i]
  {
    if b == [] {
      assert a + b == a;
    } else {
      SamplesAdd(lens, a, b[..|b| - 1]);
      assert (a + b)[..|a + b| - 1] == a + b[..|b| - 1];
    }
  }

  function EffectiveMaxBatchCount(maxBatchSize: nat, chunkLen: nat): (cap: nat)
    ensures cap > 0 && (maxBatchSize > 0 ==> cap == maxBatchSize)
    ensures maxBatchSize == 0 ==> cap >= chunkLen && (cap == chunkLen || cap == 1)
  {
    if maxBatchSize == 0 then Max(chunkLen, 1) else maxBatchSize
  }

  /** A group may be run: not too many chunks, and not too long unless it is a single chunk. A budget of
      zero or less means no limit on the duration. */
  predicate Allowed(lens: seq<nat>, cap: nat, budget: int, group: seq<nat>)
    requires forall k :: 0 <= k < |group| ==> group[k] < |lens|
  {
    0 < |group| <= cap && (budget <= 0 || |group| == 1 || Samples(lens, group) <= budget)
  }

  /** An order-preserving partition into groups that may be run. */
  ghost predicate Partition(lens: seq<nat>, cap: nat, budget: int, order: seq<nat>, groups: seq<seq<nat>>)
    requires forall k :: 0 <= k < |order| ==> order[k] < |lens|
  {
    && Flatten(groups) == order
    && forall g ::
         0 <= g < |groups| ==>
           (forall k :: 0 <= k < |groups[g]| ==> groups[g][k] < |lens|) && Allowed(lens, cap, budget, groups[g])
  }

  /** Where the first `k` groups end. */
  function End(groups: seq<seq<nat>>, k: nat): nat
    requires k <= |groups|
  {
    if k == 0 then 0 else End(groups, k - 1) + |groups[k - 1]|
  }

  lemma {:induction false} EndPrefix(groups: seq<seq<nat>>, more: seq<seq<nat>>, k: nat)
    requires k <= |groups|
    ensures End(groups + more, k) == End(groups, k)
  {
    if k > 0 {
      EndPrefix(groups, more, k - 1);
    }
  }

  lemma {:induction false} GroupIsSlice(groups: seq<seq<nat>>, k: nat)
    requires k < |groups|
    ensures End(groups, k) <= End(groups, k + 1) <= |Flatten(groups)|
    ensures groups[k] == Flatten(groups)[End(groups, k)..End(groups, k + 1)]
    ensures End(groups, |groups|) == |Flatten(groups)|
  {
    var n := |groups| - 1;
    FlattenEnd(groups[..n]);
    EndPrefix(groups[..n], [groups[n]], n);
    assert groups[..n] + [groups[n]] == groups;
    if k < n {
      GroupIsSlice(groups[..n], k);
      EndPrefix(groups[..n], [groups[n]], k);
      EndPrefix(groups[..n], [groups[n]], k + 1);
    }
  }

  lemma {:induction false} FlattenEnd(groups: seq<seq<nat>>)
    ensures End(groups, |groups|) == |Flatten(groups)|
  {
    if groups != [] {
      var n := |groups| - 1;
      FlattenEnd(groups[..n]);
      EndPrefix(groups[..n], [groups[n]], n);
      assert groups[..n] + [groups[n]] == groups;
    }
  }

  // ----- the greedy groups are as few as possible

  /** What is wrong with one more chunk, for every group but the last. */
  ghost predicate Maximal(lens: seq<nat>, cap: nat, budget: int, order: seq<nat>, groups: seq<seq<nat>>)
    requires forall k :: 0 <= k < |order| ==> order[k] < |lens|
  {
    forall g :: 0 <= g < |groups| ==> FullAt(lens, cap, budget, order, End(groups, g), End(groups, g + 1))
  }

  ghost predicate FullAt(lens: seq<nat>, cap: nat, budget: int, order: seq<nat>, from: nat, to: nat)
    requires forall k :: 0 <= k < |order| ==> order[k] < |lens|
  {
    from <= to < |order| ==> !Allowed(lens, cap, budget, order[from..to + 1])
  }

  lemma {:induction false} SamplesSlice(lens: seq<nat>, order: seq<nat>, a: nat, b: nat, c: nat, d: nat)
    requires a <= b <= c <= d <= |order| && forall k :: 0 <= k < |order| ==> order[k] < |lens|
    ensures Samples(lens, order[b..c]) <= Samples(lens, order[a..d])
    decreases d - a
  {
    if c < d {
      SamplesSlice(lens, order, a, b, c, d - 1);
      assert order[a..d][..d - 1 - a] == order[a..d - 1];
    } else if a < b {
      SamplesFirst(lens, order, a, d);
      SamplesSlice(lens, order, a + 1, b, c, d);
    }
  }

  lemma {:induction false} SamplesFirst(lens: seq<nat>, order: seq<nat>, a: nat, d: nat)
    requires a < d <= |order| && forall k :: 0 <= k < |order| ==> order[k] < |lens|
    ensures Samples(lens, order[a..d]) == lens[order[a]] + Samples(lens, order[a + 1..d])
  {
    if a + 1 < d {
      SamplesFirst(lens, order, a, d - 1);
      assert order[a..d][..d - 1 - a] == order[a..d - 1];
      assert order[a + 1..d][..d - 2 - a] == order[a + 1..d - 1];
    }
  }

  /** A part of a group that may be run may be run. */
  lemma AllowedPart(lens: seq<nat>, cap: nat, budget: int, order: seq<nat>, a: nat, b: nat, c: nat, d: nat)
    requires a <= b < c <= d <= |order| && forall k :: 0 <= k < |order| ==> order[k] < |lens|
    requires Allowed(lens, cap, budget, order[a..d])
    ensures Allowed(lens, cap, budget, order[b..c])
  {
    SamplesSlice(lens, order, a, b, c, d);
  }

  /** Greedy stays ahead: after as many groups it has covered at least as much. */
  lemma {:induction false} StaysAhead(lens: seq<nat>, cap: nat, budget: int, order: seq<nat>, groups: seq<seq<nat>>,
                                      other: seq<seq<nat>>, k: nat)
    requires forall k :: 0 <= k < |order| ==> order[k] < |lens|
    requires Partition(lens, cap, budget, order, groups) && Maximal(lens, cap, budget, order, groups)
    requires Partition(lens, cap, budget, order, other)
    requires k <= |groups| && k <= |other|
    ensures End(other, k) <= End(groups, k)
  {
    if k > 0 {
      StaysAhead(lens, cap, budget, order, groups, other, k - 1);
      GroupIsSlice(groups, k - 1);
      GroupIsSlice(other, k - 1);
      var from, to := End(groups, k - 1), End(groups, k);
      if to < End(other, k) {
        assert FullAt(lens, cap, budget, order, from, to);
        AllowedPart(lens, cap, budget, order, End(other, k - 1), from, to + 1, End(other, k));
        assert false;
      }
    }
  }

  /** No order-preserving partition under the same rules has fewer groups. */
  lemma GreedyIsMinimal(lens: seq<nat>, cap: nat, budget: int, order: seq<nat>, groups: seq<seq<nat>>,
                        other: seq<seq<nat>>)
    requires forall k :: 0 <= k < |order| ==> order[k] < |lens|
    requires Partition(lens, cap, budget, order, groups) && Maximal(lens, cap, budget, order, groups)
    requires Partition(lens, cap, budget, order, other)
    ensures |groups| <= |other|
  {
    if |other| < |groups| {
      var k := |other|;
      StaysAhead(lens, cap, budget, order, groups, other, k);
      FlattenEnd(other);
      GroupIsSlice(groups, k);
    }
  }

  ghost predicate Minimal(lens: seq<nat>, cap: nat, budget: int, order: seq<nat>, groups: seq<seq<nat>>)
    requires forall k :: 0 <= k < |order| ==> order[k] < |lens|
  {
    forall other :: Partition(lens, cap, budget, order, other) ==> |groups| <= |other|
  }

  // ----- the loop

  /** The state of the loop at position `i`: closed groups are full, the open one has room. */
  ghost predicate Grouping(lens: seq<nat>, cap: nat, budget: int, order: seq<nat>, groups: seq<seq<nat>>,
                           current: seq<nat>, i: nat)
    requires forall k :: 0 <= k < |order| ==> order[k] < |lens|
  {
    && i <= |order|
    && |current| <= i
    && Partition(lens, cap, budget, order[..i - |current|], groups)
    && Maximal(lens, cap, budget, order, groups)
    && current == order[i - |current|..i]
  }

  /** Close the open group at `i`. */
  lemma CloseGroup(lens: seq<nat>, cap: nat, budget: int, order: seq<nat>, groups: seq<seq<nat>>, current: seq<nat>,
                   i: nat)
    requires forall k :: 0 <= k < |order| ==> order[k] < |lens|
    requires Grouping(lens, cap, budget, order, groups, current, i)
    requires Allowed(lens, cap, budget, current) && FullAt(lens, cap, budget, order, i - |current|, i)
    ensures Grouping(lens, cap, budget, order, groups + [current], [], i)
  {
    var closed := groups + [current];
    assert closed[..|groups|] == groups;
    assert order[..i] == order[..i - |current|] + current;
    FlattenEnd(groups);
    forall g | 0 <= g < |closed|
      ensures FullAt(lens, cap, budget, order, End(closed, g), End(closed, g + 1))
    {
      EndPrefix(groups, [current], if g < |groups| then g else |groups|);
      if g < |groups| {
        EndPrefix(groups, [current], g + 1);
        assert FullAt(lens, cap, budget, order, End(groups, g), End(groups, g + 1));
      }
    }
  }

  method GroupChunkIndices(order: seq<nat>, lens: seq<nat>, maxBatchSize: nat, budget: int)
    returns (r: Outcome<seq<seq<nat>>>)
    ensures budget <= 0 ==> r.Ok?
    ensures budget > 0 ==> (r.Ok? <==> forall k :: 0 <= k < |order| ==> order[k] < |lens|)
    ensures r.Ok? && (forall k :: 0 <= k < |order| ==> order[k] < |lens|) ==>
              var cap := EffectiveMaxBatchCount(maxBatchSize, |order|);
              Partition(lens, cap, budget, order, r.value) && Minimal(lens, cap, budget, order, r.value)
  {
    hide Partition, Maximal;
    if order == [] {
      ghost var cap := EffectiveMaxBatchCount(maxBatchSize, 0);
      NothingToGroup(lens, cap, budget);
      return Ok([]);
    }
    var countCap := EffectiveMaxBatchCount(maxBatchSize, |order|);
    var groups;
    if budget <= 0 {
      groups := ChunksOf(order, countCap, lens, budget);
    } else {
      if exists k :: 0 <= k < |order| && order[k] >= |lens| {
        return Err("missing chunk");
      }
      groups := GroupByBudget(order, lens, countCap, budget);
    }
    if forall k :: 0 <= k < |order| ==> order[k] < |lens| {
      forall other | Partition(lens, countCap, budget, order, other)
        ensures |groups| <= |other|
      {
        GreedyIsMinimal(lens, countCap, budget, order, groups, other);
      }
    }
    r := Ok(groups);
  }

  lemma NothingToGroup(lens: seq<nat>, cap: nat, budget: int)
    ensures Partition(lens, cap, budget, [], []) && Minimal(lens, cap, budget, [], [])
    ensures Maximal(lens, cap, budget, [], [])
  {
  }

  /** Without a budget: as many as the count allows. */
  method ChunksOf(order: seq<nat>, cap: nat, ghost lens: seq<nat>, ghost budget: int) returns (groups: seq<seq<nat>>)
    requires cap > 0 && budget <= 0
    ensures (forall k :: 0 <= k < |order| ==> order[k] < |lens|) ==>
              Partition(lens, cap, budget, order, groups) && Maximal(lens, cap, budget, order, groups)
  {
    groups := [];
    var i := 0;
    ghost var known := forall k :: 0 <= k < |order| ==> order[k] < |lens|;
    while i < |order|
      invariant i <= |order|
      invariant known ==> Grouping(lens, cap, budget, order, groups, [], i)
    {
      var to := Min(i + cap, |order|);
      ghost var before := groups;
      groups := groups + [order[i..to]];
      if known {
        OpenGroup(lens, cap, budget, order, before, i, to);
        CloseGroup(lens, cap, budget, order, before, order[i..to], to);
      }
      i := to;
    }
    assert order[..|order|] == order;
  }

  lemma OpenGroup(lens: seq<nat>, cap: nat, budget: int, order: seq<nat>, groups: seq<seq<nat>>, i: nat, to: nat)
    requires forall k :: 0 <= k < |order| ==> order[k] < |lens|
    requires Grouping(lens, cap, budget, order, groups, [], i) && i <= to <= |order|
    ensures Grouping(lens, cap, budget, order, groups, order[i..to], to)
  {
  }

  /** With a budget: close the open group when the next chunk would not fit, run oversized chunks alone. */
  method GroupByBudget(order: seq<nat>, lens: seq<nat>, cap: nat, budget: int) returns (groups: seq<seq<nat>>)
    requires cap > 0 && budget > 0 && forall k :: 0 <= k < |order| ==> order[k] < |lens|
    ensures Partition(lens, cap, budget, order, groups) && Maximal(lens, cap, budget, order, groups)
  {
    hide Maximal, Allowed, FullAt, Samples;
    groups := [];
    var current: seq<nat> := [];
    var currentSamples := 0;
    GroupingStarts(lens, cap, budget, order);
    for i := 0 to |order|
      invariant Collecting(lens, cap, budget, order, groups, current, currentSamples, i)
    {
      groups, current, currentSamples := TakeChunk(order, lens, cap, budget, i, groups, current, currentSamples);
    }
    if current != [] {
      LastGroupFits(lens, cap, budget, order, current);
      CloseGroup(lens, cap, budget, order, groups, current, |order|);
      groups := groups + [current];
    }
    assert order[..|order|] == order;
  }

  /** The open group has room, and its samples are counted. */
  ghost predicate Collecting(lens: seq<nat>, cap: nat, budget: int, order: seq<nat>, groups: seq<seq<nat>>,
                             current: seq<nat>, currentSamples: nat, i: nat)
    requires forall k :: 0 <= k < |order| ==> order[k] < |lens|
  {
    && Grouping(lens, cap, budget, order, groups, current, i)
    && |current| < cap
    && currentSamples == Samples(lens, current) <= budget
  }

  /** One chunk: into the open group, into a new one, or alone. */
  method TakeChunk(order: seq<nat>, lens: seq<nat>, cap: nat, budget: int, i: nat, before: seq<seq<nat>>,
                   open: seq<nat>, openSamples: nat)
    returns (groups: seq<seq<nat>>, current: seq<nat>, currentSamples: nat)
    requires cap > 0 && budget > 0 && i < |order| && forall k :: 0 <= k < |order| ==> order[k] < |lens|
    requires Collecting(lens, cap, budget, order, before, open, openSamples, i)
    ensures Collecting(lens, cap, budget, order, groups, current, currentSamples, i + 1)
  {
    hide Partition, Maximal, Allowed, FullAt, Samples;
    groups, current, currentSamples := before, open, openSamples;
    var idx := order[i];
    var samples := lens[idx];
    OpenGroupFits(lens, cap, budget, order, current, i);
    EmptyGroup(lens, order, i);
    if samples > budget {
      if current != [] {
        CloseGroup(lens, cap, budget, order, groups, current, i);
        groups := groups + [current];
        current, currentSamples := [], 0;
      }
      AloneIsFull(lens, cap, budget, order, groups, i);
      CloseGroup(lens, cap, budget, order, groups, [idx], i + 1);
      groups := groups + [[idx]];
    } else {
      var exceedsDuration := current != [] && currentSamples + samples > budget;
      var exceedsCount := current != [] && |current| >= cap;
      if exceedsDuration || exceedsCount {
        CloseGroup(lens, cap, budget, order, groups, current, i);
        groups := groups + [current];
        current, currentSamples := [], 0;
      }
      AddChunk(lens, cap, budget, order, groups, current, i);
      current := current + [idx];
      currentSamples := currentSamples + samples;
      if |current| >= cap {
        CloseGroup(lens, cap, budget, order, groups, current, i + 1);
        groups := groups + [current];
        current, currentSamples := [], 0;
      }
    }
  }

  lemma GroupingStarts(lens: seq<nat>, cap: nat, budget: int, order: seq<nat>)
    requires forall k :: 0 <= k < |order| ==> order[k] < |lens|
    ensures Grouping(lens, cap, budget, order, [], [], 0) && Samples(lens, []) == 0
  {
  }

  lemma EmptyGroup(lens: seq<nat>, order: seq<nat>, i: nat)
    requires i < |order|
    ensures Samples(lens, []) == 0 && order[i..i] == [] && order[i..i + 1] == [order[i]]
  {
  }

  /** An open group may be run, and is full when the next chunk is too much for it. */
  lemma OpenGroupFits(lens: seq<nat>, cap: nat, budget: int, order: seq<nat>, current: seq<nat>, i: nat)
    requires forall k :: 0 <= k < |order| ==> order[k] < |lens|
    requires |current| <= i < |order| && current == order[i - |current|..i] && |current| <= cap
    requires Samples(lens, current) <= budget
    ensures current != [] ==> Allowed(lens, cap, budget, current)
    ensures current != [] && 0 < budget < Samples(lens, current) + lens[order[i]] ==>
              FullAt(lens, cap, budget, order, i - |current|, i)
  {
    NextChunk(lens, order, current, i);
  }

  lemma LastGroupFits(lens: seq<nat>, cap: nat, budget: int, order: seq<nat>, current: seq<nat>)
    requires forall k :: 0 <= k < |order| ==> order[k] < |lens|
    requires 0 < |current| <= |order| && current == order[|order| - |current|..] && |current| <= cap
    requires Samples(lens, current) <= budget
    ensures Allowed(lens, cap, budget, current) && FullAt(lens, cap, budget, order, |order| - |current|, |order|)
  {
  }

  /** Adding a chunk that fits; at the count limit the group is full. */
  lemma AddChunk(lens: seq<nat>, cap: nat, budget: int, order: seq<nat>, groups: seq<seq<nat>>, current: seq<nat>,
                 i: nat)
    requires forall k :: 0 <= k < |order| ==> order[k] < |lens|
    requires i < |order| && Grouping(lens, cap, budget, order, groups, current, i) && |current| < cap
    requires Samples(lens, current) + lens[order[i]] <= budget
    ensures Grouping(lens, cap, budget, order, groups, current + [order[i]], i + 1)
    ensures Samples(lens, current + [order[i]]) == Samples(lens, current) + lens[order[i]]
    ensures Allowed(lens, cap, budget, current + [order[i]])
    ensures |current| + 1 >= cap ==> FullAt(lens, cap, budget, order, i - |current|, i + 1)
  {
    hide Partition, Maximal;
    NextChunk(lens, order, current, i);
  }

  lemma NextChunk(lens: seq<nat>, order: seq<nat>, current: seq<nat>, i: nat)
    requires forall k :: 0 <= k < |order| ==> order[k] < |lens|
    requires |current| <= i < |order| && current == order[i - |current|..i]
    ensures order[i - |current|..i + 1] == current + [order[i]]
    ensures Samples(lens, order[i - |current|..i + 1]) == Samples(lens, current) + lens[order[i]]
  {
    assert (current + [order[i]])[..|current|] == current;
  }

  /** Nothing goes with an oversized chunk. */
  lemma AloneIsFull(lens: seq<nat>, cap: nat, budget: int, order: seq<nat>, groups: seq<seq<nat>>, i: nat)
    requires cap > 0 && budget > 0 && i < |order| && (forall k :: 0 <= k < |order| ==> order[k] < |lens|)
    requires lens[order[i]] > budget
    requires Grouping(lens, cap, budget, order, groups, [], i)
    ensures Grouping(lens, cap, budget, order, groups, [order[i]], i + 1)
    ensures Allowed(lens, cap, budget, [order[i]]) && FullAt(lens, cap, budget, order, i, i + 1)
  {
    hide Partition, Maximal;
    if i + 1 < |order| {
      SamplesFirst(lens, order, i, i + 2);
    }
  }
}
