/** Micro-batches of audio chunks through the recogniser: grouped, re-sorted, padded, generated, and put
    back in order. None of it shows in the transcripts. */
module ChunkBatching {
  import opened Prelude
  import opened Decoding
  import opened PagedKvCache
  import opened PrefillInput
  import opened WaveInput
  import opened ChunkGrouping

  /** Every index below `n` once. */
  ghost predicate Permutation(order: seq<nat>, n: nat) {
    |order| == n && NoDup(order) && forall k :: 0 <= k < |order| ==> order[k] < n
  }

  ghost predicate SortedBy(keys: seq<int>, order: seq<nat>) {
    && (forall k :: 0 <= k < |order| ==> order[k] < |keys|)
    && forall k, l ::
         0 <= k < l < |order| ==>
           keys[order[k]] < keys[order[l]] || (keys[order[k]] == keys[order[l]] && order[k] < order[l])
  }

  /** A stable sort of the indices by key. */
  method SortIndices(keys: seq<int>) returns (order: seq<nat>)
    ensures Permutation(order, |keys|) && SortedBy(keys, order)
  {
    order := [];
    for i := 0 to |keys|
      invariant Permutation(order, i) && SortedBy(keys, order)
    {
      var p: nat := |order|;
      while p > 0 && keys[order[p - 1]] > keys[i]
        invariant p <= |order|
        invariant forall k :: p <= k < |order| ==> keys[order[k]] > keys[i]
      {
        p := p - 1;
      }
      InsertPermutes(order, p, i);
      InsertSorted(keys, order, p, i);
      order := Inserted(order, p, i);
    }
  }

  function Inserted(order: seq<nat>, p: nat, i: nat): (after: seq<nat>)
    requires p <= |order|
    ensures |after| == |order| + 1
    ensures forall k :: 0 <= k < |after| ==> after[k] == if k < p then order[k] else if k == p then i else order[k - 1]
  {
    order[..p] + [i] + order[p..]
  }

  lemma InsertPermutes(order: seq<nat>, p: nat, i: nat)
    requires p <= |order| && Permutation(order, i)
    ensures Permutation(Inserted(order, p, i), i + 1)
  {
    var after := Inserted(order, p, i);
    forall k, l | 0 <= k < l < |after|
      ensures after[k] != after[l]
    {
      assert k != p && l != p ==> order[if k < p then k else k - 1] != order[if l < p then l else l - 1];
    }
  }

  lemma InsertSorted(keys: seq<int>, order: seq<nat>, p: nat, i: nat)
    requires i < |keys| && p <= |order| && Permutation(order, i) && SortedBy(keys, order)
    requires forall k :: p <= k < |order| ==> keys[order[k]] > keys[i]
    requires p > 0 ==> keys[order[p - 1]] <= keys[i]
    ensures SortedBy(keys, Inserted(order, p, i))
  {
    var after := Inserted(order, p, i);
    forall k: nat, l: nat | k < l < |after|
      ensures keys[after[k]] < keys[after[l]] || (keys[after[k]] == keys[after[l]] && after[k] < after[l])
    {
      InsertedPair(keys, order, p, i, k, l);
    }
  }

  lemma InsertedPair(keys: seq<int>, order: seq<nat>, p: nat, i: nat, k: nat, l: nat)
    requires i < |keys| && p <= |order| && k < l <= |order| && SortedBy(keys, order)
    requires forall j :: 0 <= j < |order| ==> order[j] < i
    requires forall j :: p <= j < |order| ==> keys[order[j]] > keys[i]
    requires p > 0 ==> keys[order[p - 1]] <= keys[i]
    ensures var (a, b) := (Inserted(order, p, i)[k], Inserted(order, p, i)[l]);
            a < |keys| && b < |keys| && (keys[a] < keys[b] || (keys[a] == keys[b] && a < b))
  {
    var (k', l') := (if k < p then k else k - 1, if l < p then l else l - 1);
    if l == p {
      assert k < p - 1 ==> keys[order[k]] <= keys[order[p - 1]];
    } else if k != p {
      assert Inserted(order, p, i)[k] == order[k'] && Inserted(order, p, i)[l] == order[l'];
    }
  }

  lemma {:induction false} PermutationIsOnto(order: seq<nat>, n: nat)
    requires Permutation(order, n)
    ensures forall i: nat :: i < n ==> i in order
  {
    NoDupSetSize(order);
    forall x | x in Elements(order)
      ensures x < n
    {
      assert x in order;
    }
    AllBelow(Elements(order), n);
    forall i: nat | i < n
      ensures i in order
    {
      assert i in Elements(order);
    }
  }

  lemma {:induction false} AllBelow(s: set<nat>, n: nat)
    requires |s| == n && forall x :: x in s ==> x < n
    ensures forall i: nat :: i < n ==> i in s
  {
    if n > 0 {
      if n - 1 !in s {
        FewBelow(s, n - 1);
        assert false;
      }
      AllBelow(s - {n - 1}, n - 1);
    }
  }

  lemma {:induction false} FewBelow(s: set<nat>, n: nat)
    requires forall x :: x in s ==> x < n
    ensures |s| <= n
  {
    if n > 0 {
      FewBelow(s - {n - 1}, n - 1);
    } else {
      assert s == {};
    }
  }

  // ----- re-batching prepared inputs

  /** Lengths close enough to share a padded batch: the longest at most a third over the shortest, and at
      most 256 tokens apart. */
  predicate Close(shortest: nat, longest: nat) {
    longest <= DivCeil(4 * shortest, 3) && longest - shortest <= 256
  }

  /** In whole numbers: three times the longest is less than four times the shortest and three. */
  lemma CloseMeans(shortest: nat, longest: nat)
    ensures Close(shortest, longest) <==> 3 * longest < 4 * shortest + 3 && longest <= shortest + 256
  {
    DivCeilLeast(4 * shortest, 3, longest);
    assert DivCeil(4 * shortest, 3) * 3 < 4 * shortest + 3;
  }

  ghost predicate Balanced(lens: seq<nat>, cap: nat, group: seq<nat>) {
    && 0 < |group| <= cap
    && (forall k :: 0 <= k < |group| ==> group[k] < |lens|)
    && forall k, l :: 0 <= k < |group| && 0 <= l < |group| ==> Close(lens[group[k]], lens[group[l]])
  }

  lemma CloseStays(a: nat, b: nat, c: nat, d: nat)
    requires a <= b && c <= d && Close(a, d)
    ensures Close(b, c)
  {
    DivCeilMonotone(4 * a, 4 * b, 3);
  }

  lemma CloseToItself(a: nat)
    ensures Close(a, a)
  {
  }

  /** A sorted group whose ends are close is balanced. */
  lemma EndsAreEnough(lens: seq<nat>, cap: nat, group: seq<nat>)
    requires 0 < |group| <= cap && forall k :: 0 <= k < |group| ==> group[k] < |lens|
    requires forall k, l :: 0 <= k <= l < |group| ==> lens[group[k]] <= lens[group[l]]
    requires Close(lens[group[0]], lens[group[|group| - 1]])
    ensures Balanced(lens, cap, group)
  {
    hide Close;
    forall k, l | 0 <= k < |group| && 0 <= l < |group|
      ensures Close(lens[group[k]], lens[group[l]])
    {
      CloseStays(lens[group[0]], lens[group[k]], lens[group[l]], lens[group[|group| - 1]]);
    }
  }

  /** Split the sorted order wherever the next length is too far off or the batch is full. */
  method SplitSorted(order: seq<nat>, lens: seq<nat>, cap: nat) returns (groups: seq<seq<nat>>)
    requires cap > 0 && forall k :: 0 <= k < |order| ==> order[k] < |lens|
    requires forall k, l :: 0 <= k <= l < |order| ==> lens[order[k]] <= lens[order[l]]
    ensures Flatten(groups) == order
    ensures forall g :: 0 <= g < |groups| ==> Balanced(lens, cap, groups[g])
  {
    hide Balanced, Close;
    groups := [];
    var current: seq<nat>, currentMin, currentMax := [], 0, 0;
    for i := 0 to |order|
      invariant |current| <= i && Flatten(groups) == order[..i - |current|] && current == order[i - |current|..i]
      invariant forall g :: 0 <= g < |groups| ==> Balanced(lens, cap, groups[g])
      invariant |current| <= cap
      invariant current != [] ==>
                currentMin == lens[current[0]] && currentMax == lens[current[|current| - 1]] &&
                  Close(currentMin, currentMax)
    {
      var len := lens[order[i]];
      var shouldSplit := false;
      if current != [] {
        var nextMax := Max(currentMax, len);
        shouldSplit := |current| >= cap || !Close(currentMin, nextMax);
      }
      if shouldSplit {
        PushGroup(lens, cap, order, groups, current, i);
        groups := groups + [current];
        current, currentMin, currentMax := [], 0, 0;
      }
      if current == [] {
        CloseToItself(len);
        currentMin, currentMax := len, len;
      } else {
        currentMax := Max(currentMax, len);
      }
      assert order[i - |current|..i + 1] == order[i - |current|..i] + [order[i]];
      current := current + [order[i]];
    }
    if current != [] {
      PushGroup(lens, cap, order, groups, current, |order|);
      groups := groups + [current];
    }
    assert order[..|order|] == order;
  }

  lemma PushGroup(lens: seq<nat>, cap: nat, order: seq<nat>, groups: seq<seq<nat>>, current: seq<nat>, i: nat)
    requires forall k :: 0 <= k < |order| ==> order[k] < |lens|
    requires forall k, l :: 0 <= k <= l < |order| ==> lens[order[k]] <= lens[order[l]]
    requires 0 < |current| <= cap && |current| <= i <= |order| && Flatten(groups) == order[..i - |current|]
    requires current == order[i - |current|..i]
    requires Close(lens[current[0]], lens[current[|current| - 1]])
    ensures Balanced(lens, cap, current) && Flatten(groups + [current]) == order[..i]
  {
    hide Close, Balanced;
    EndsAreEnough(lens, cap, current);
    assert (groups + [current])[..|groups|] == groups;
  }

  function Ones(n: nat): (s: seq<nat>)
    ensures |s| == n
  {
    seq(n, _ => 1)
  }

  /** A row cut to its prompt and padded to the longest of its batch. */
  function Repadded(row: PreparedInputs, len: nat, padId: Token): PreparedInputs
    requires PromptLen(row) <= |row.inputIds| && PromptLen(row) <= len
  {
    PreparedInputs(PaddedIds(row, len, padId), Ones(PromptLen(row)) + Padding(len - PromptLen(row), 0),
                   row.inputFeatures)
  }

  /** Unpadding recovers the row. */
  lemma RepaddedMeans(row: PreparedInputs, len: nat, padId: Token)
    requires PromptLen(row) <= |row.inputIds| && PromptLen(row) <= len
    ensures PromptLen(Repadded(row, len, padId)) == PromptLen(row)
    ensures ClientTokens(Repadded(row, len, padId)) == ClientTokens(row)
    ensures RightPadded(Repadded(row, len, padId).attentionMask)
  {
    var n := PromptLen(row);
    MaskLenFull(Ones(n));
    ZeroMask(Ones(n), Padding(len - n, 0));
    assert PaddedIds(row, len, padId)[..n] == row.inputIds[..n];
  }

  function IndexesOf(batch: seq<(nat, PreparedInputs)>): (idx: seq<nat>)
    ensures |idx| == |batch|
  {
    seq(|batch|, k requires 0 <= k < |batch| => batch[k].0)
  }

  /** The longest prompt of a group. */
  function GroupMax(lens: seq<nat>, group: seq<nat>): (m: nat)
    requires forall k :: 0 <= k < |group| ==> group[k] < |lens|
    ensures forall k :: 0 <= k < |group| ==> lens[group[k]] <= m
    ensures group != [] ==> exists k :: 0 <= k < |group| && lens[group[k]] == m
  {
    if group == [] then 0 else
      var (n, before) := (|group| - 1, GroupMax(lens, group[..|group| - 1]));
      assert n > 0 ==> exists k :: 0 <= k < n && lens[group[..n][k]] == before && group[..n][k] == group[k];
      Max(before, lens[group[n]])
  }

  /** One micro-batch: balanced, each row its original repadded to the longest. */
  ghost predicate MicroBatch(prepared: seq<PreparedInputs>, cap: nat, padId: Token, batch: seq<(nat, PreparedInputs)>) {
    && Balanced(PromptLensOf(prepared), cap, IndexesOf(batch))
    && exists len :: AllRepadded(prepared, padId, len, batch)
  }

  ghost predicate AllRepadded(prepared: seq<PreparedInputs>, padId: Token, len: nat, batch: seq<(nat, PreparedInputs)>)
  {
    forall k :: 0 <= k < |batch| ==> RepaddedFrom(prepared, padId, len, batch[k])
  }

  ghost predicate RepaddedFrom(prepared: seq<PreparedInputs>, padId: Token, len: nat, item: (nat, PreparedInputs)) {
    && item.0 < |prepared|
    && PromptLen(prepared[item.0]) <= |prepared[item.0].inputIds| && PromptLen(prepared[item.0]) <= len
    && item.1 == Repadded(prepared[item.0], len, padId)
  }

  ghost predicate RowsFit(prepared: seq<PreparedInputs>) {
    forall i :: 0 <= i < |prepared| ==>
      RightPadded(prepared[i].attentionMask) && PromptLen(prepared[i]) <= |prepared[i].inputIds|
  }

  method RepadGroup(prepared: seq<PreparedInputs>, group: seq<nat>, padId: Token, ghost cap: nat)
    returns (batch: seq<(nat, PreparedInputs)>)
    requires RowsFit(prepared) && Balanced(PromptLensOf(prepared), cap, group)
    ensures IndexesOf(batch) == group && MicroBatch(prepared, cap, padId, batch)
  {
    hide PromptLen;
    var lens := PromptLensOf(prepared);
    var groupMax := GroupMax(lens, group);
    batch := [];
    for k := 0 to |group|
      invariant |batch| == k
      invariant forall l :: 0 <= l < k ==> batch[l].0 == group[l] && RepaddedFrom(prepared, padId, groupMax, batch[l])
    {
      batch := batch + [(group[k], Repadded(prepared[group[k]], groupMax, padId))];
    }
    assert IndexesOf(batch) == group;
    assert AllRepadded(prepared, padId, groupMax, batch);
  }

  /** Sort by length, split, repad: a permutation of the rows into balanced micro-batches. */
  method RebatchPreparedInputs(prepared: seq<PreparedInputs>, padId: Token, maxBatchSize: nat)
    returns (batches: seq<seq<(nat, PreparedInputs)>>, ghost groups: seq<seq<nat>>)
    requires RowsFit(prepared)
    ensures |groups| == |batches| && Permutation(Flatten(groups), |prepared|)
    ensures forall b :: 0 <= b < |batches| ==> IndexesOf(batches[b]) == groups[b]
    ensures forall b ::
              0 <= b < |batches| ==>
                MicroBatch(prepared, EffectiveMaxBatchCount(maxBatchSize, |prepared|), padId, batches[b])
  {
    hide MicroBatch, PromptLen;
    if prepared == [] {
      return [], [];
    }
    var countCap := EffectiveMaxBatchCount(maxBatchSize, |prepared|);
    var lens := PromptLensOf(prepared);
    var keys: seq<int> := seq(|lens|, k requires 0 <= k < |lens| => lens[k]);
    var order := SortIndices(keys);
    var split := SplitSorted(order, lens, countCap);
    groups := split;
    batches := [];
    for g := 0 to |split|
      invariant |batches| == g
      invariant forall b ::
                0 <= b < g ==> IndexesOf(batches[b]) == split[b] && MicroBatch(prepared, countCap, padId, batches[b])
    {
      var batch := RepadGroup(prepared, split[g], padId, countCap);
      batches := batches + [batch];
    }
  }

  // ----- generation

  /** A recogniser that treats every row on its own: what it writes depends on the row's own tokens and
      spectrogram. `tokens` and `features` prepare a chunk, `parse` reads the language tag. */
  datatype Recogniser = Recogniser(
    tokens: (string, seq<real>) -> seq<Token>,
    features: seq<real> -> seq<real>,
    generate: (seq<Token>, seq<real>) -> string,
    parse: (string, Option<string>) -> (string, string))

  function Transcript(asr: Recogniser, row: PreparedInputs): string {
    asr.generate(ClientTokens(row), row.inputFeatures)
  }

  /** The engine on one micro-batch. */
  method GenerateBatch(asr: Recogniser, batch: seq<(nat, PreparedInputs)>) returns (raws: seq<string>)
    ensures |raws| == |batch| && forall k :: 0 <= k < |batch| ==> raws[k] == Transcript(asr, batch[k].1)
  {
    raws := seq(|batch|, k requires 0 <= k < |batch| => Transcript(asr, batch[k].1));
  }

  /** Fill the slots of one micro-batch. */
  method Scatter(out: array<Option<string>>, batch: seq<(nat, PreparedInputs)>, raws: seq<string>)
    requires |raws| == |batch| && forall k :: 0 <= k < |batch| ==> batch[k].0 < out.Length
    requires NoDup(IndexesOf(batch))
    modifies out
    ensures forall k :: 0 <= k < |batch| ==> out[batch[k].0] == Some(raws[k])
    ensures forall i: nat :: i < out.Length && i !in IndexesOf(batch) ==> out[i] == old(out[i])
  {
    var idx := IndexesOf(batch);
    for k := 0 to |batch|
      invariant forall l :: 0 <= l < k ==> out[idx[l]] == Some(raws[l])
      invariant forall i: nat :: i < out.Length && i !in idx ==> out[i] == old(out[i])
    {
      assert forall l :: 0 <= l < k ==> idx[l] != idx[k];
      assert idx[k] in idx;
      out[idx[k]] := Some(raws[k]);
    }
  }

  /** Parts of a sequence without repetition have nothing in common. */
  lemma PartsApart(a: seq<nat>, b: seq<nat>, rest: seq<nat>)
    requires NoDup(a + b + rest)
    ensures NoDup(b) && forall i: nat :: i in b ==> i in a + b + rest && i !in a
  {
    var s := a + b + rest;
    forall k | 0 <= k < |b|
      ensures s[|a| + k] == b[k]
    {
    }
    forall l | 0 <= l < |a|
      ensures s[l] == a[l]
    {
    }
    forall k, l | 0 <= k < |b| && 0 <= l < |a|
      ensures a[l] != b[k]
    {
      assert s[l] != s[|a| + k];
    }
    forall k, l | 0 <= k < l < |b|
      ensures b[k] != b[l]
    {
      assert s[|a| + k] != s[|a| + l];
    }
    forall i: nat | i in b
      ensures i in s
    {
      var k :| 0 <= k < |b| && b[k] == i;
      assert s[|a| + k] == i;
    }
  }

  lemma FlattenMembers(groups: seq<seq<nat>>, g: nat)
    requires NoDup(Flatten(groups)) && g < |groups|
    ensures NoDup(groups[g])
    ensures forall i: nat :: i in groups[g] ==> i in Flatten(groups) && i !in Flatten(groups[..g])
    ensures forall i: nat :: i in Flatten(groups[..g + 1]) <==> i in Flatten(groups[..g]) || i in groups[g]
  {
    hide Flatten;
    FlattenPrefix(groups, g);
    FlattenSplit(groups, g + 1);
    var (a, b) := (Flatten(groups[..g]), groups[g]);
    var rest := Flatten(groups)[|a + b|..];
    assert Flatten(groups) == a + b + rest;
    PartsApart(a, b, rest);
  }

  lemma {:induction false} FlattenSplit(groups: seq<seq<nat>>, g: nat)
    requires g <= |groups|
    ensures |Flatten(groups[..g])| <= |Flatten(groups)|
    ensures Flatten(groups)[..|Flatten(groups[..g])|] == Flatten(groups[..g])
    decreases |groups|
  {
    if g < |groups| {
      var n := |groups| - 1;
      FlattenSplit(groups[..n], g);
      assert groups[..n][..g] == groups[..g];
    } else {
      assert groups[..g] == groups;
    }
  }

  /** Every row gets the transcript it would get alone, in its own place. */
  method GenerateRawPreparedBatch(asr: Recogniser, prepared: seq<PreparedInputs>, padId: Token, maxBatchSize: nat)
    returns (r: Outcome<seq<string>>)
    requires RowsFit(prepared)
    ensures r.Ok? && |r.value| == |prepared|
    ensures forall i :: 0 <= i < |prepared| ==> r.value[i] == Transcript(asr, prepared[i])
  {
    hide RowsFit, Transcript, MicroBatch;
    if prepared == [] {
      return Ok([]);
    }
    var batches;
    ghost var groups;
    batches, groups := RebatchPreparedInputs(prepared, padId, EffectiveMaxBatchCount(maxBatchSize, |prepared|));
    ghost var cap := EffectiveMaxBatchCount(EffectiveMaxBatchCount(maxBatchSize, |prepared|), |prepared|);
    var out := new Option<string>[|prepared|](_ => None);
    for b := 0 to |batches|
      invariant forall i: nat ::
                i < |prepared| && i in Flatten(groups[..b]) ==> out[i] == Some(Transcript(asr, prepared[i]))
    {
      FlattenMembers(groups, b);
      var raws := GenerateBatch(asr, batches[b]);
      BatchTranscripts(asr, prepared, cap, padId, batches[b], raws);
      ghost var before := out[..];
      Scatter(out, batches[b], raws);
      ScatteredRight(asr, prepared, batches[b], raws, groups[b], before, out[..], Flatten(groups[..b]),
                     Flatten(groups[..b + 1]));
    }
    assert groups[..|batches|] == groups;
    PermutationIsOnto(Flatten(groups), |prepared|);
    r := Collect(out);
  }

  lemma BatchTranscripts(asr: Recogniser, prepared: seq<PreparedInputs>, cap: nat, padId: Token,
                         batch: seq<(nat, PreparedInputs)>, raws: seq<string>)
    requires MicroBatch(prepared, cap, padId, batch) && |raws| == |batch|
    requires forall k :: 0 <= k < |batch| ==> raws[k] == Transcript(asr, batch[k].1)
    ensures forall k :: 0 <= k < |batch| ==> batch[k].0 < |prepared| && raws[k] == Transcript(asr, prepared[batch[k].0])
  {
    hide PromptLen, Balanced, Repadded, ClientTokens;
    var len :| AllRepadded(prepared, padId, len, batch);
    forall k | 0 <= k < |batch|
      ensures batch[k].0 < |prepared| && raws[k] == Transcript(asr, prepared[batch[k].0])
    {
      assert RepaddedFrom(prepared, padId, len, batch[k]);
      RepaddedMeans(prepared[batch[k].0], len, padId);
      RepaddedFeatures(prepared[batch[k].0], len, padId);
    }
  }

  lemma RepaddedFeatures(row: PreparedInputs, len: nat, padId: Token)
    requires PromptLen(row) <= |row.inputIds| && PromptLen(row) <= len
    ensures Repadded(row, len, padId).inputFeatures == row.inputFeatures
  {
  }

  lemma ScatteredRight(asr: Recogniser, prepared: seq<PreparedInputs>, batch: seq<(nat, PreparedInputs)>,
                       raws: seq<string>, group: seq<nat>,
                       before: seq<Option<string>>, after: seq<Option<string>>, done: seq<nat>, doneNow: seq<nat>)
    requires |before| == |after| == |prepared| && |raws| == |batch| && IndexesOf(batch) == group
    requires forall k ::
              0 <= k < |batch| ==>
                batch[k].0 < |prepared| && raws[k] == Transcript(asr, prepared[batch[k].0]) &&
                  after[batch[k].0] == Some(raws[k])
    requires forall i: nat :: i < |prepared| && i !in group ==> after[i] == before[i]
    requires forall i: nat :: i < |prepared| && i in done ==> before[i] == Some(Transcript(asr, prepared[i]))
    requires forall i: nat :: i in doneNow <==> i in done || i in group
    ensures forall i: nat :: i < |prepared| && i in doneNow ==> after[i] == Some(Transcript(asr, prepared[i]))
  {
    forall i: nat | i < |prepared| && i in doneNow
      ensures after[i] == Some(Transcript(asr, prepared[i]))
    {
      if i in group {
        var k :| 0 <= k < |group| && group[k] == i;
        assert batch[k].0 == i;
      }
    }
  }

  /** All slots, or the error of a missing one. */
  method Collect<T(0)>(out: array<Option<T>>) returns (r: Outcome<seq<T>>)
    ensures r.Ok? <==> forall i :: 0 <= i < out.Length ==> out[i].Some?
    ensures r.Ok? ==> |r.value| == out.Length && forall i :: 0 <= i < out.Length ==> out[i] == Some(r.value[i])
  {
    var values: seq<T> := [];
    for i := 0 to out.Length
      invariant |values| == i && forall k :: 0 <= k < i ==> out[k] == Some(values[k])
    {
      if out[i].None? {
        return Err("missing output");
      }
      values := values + [out[i].value];
    }
    r := Ok(values);
  }
}
