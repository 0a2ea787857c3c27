/** Repair of word timestamps: keep a longest non-decreasing subsequence, replace the rest from its
    neighbours. Times are reals here. */
module TimestampRepair {
  import opened Prelude
  import opened LongestSubsequence

  ghost predicate NonDecreasing(s: seq<real>) {
    forall k, l :: 0 <= k < l < |s| ==> s[k] <= s[l]
  }

  /** The `t`-th of `n` equal steps from `l` to `r`. */
  function Interpolated(l: real, r: real, n: nat, t: nat): real
    requires n > 0
  {
    l + (r - l) / n as real * t as real
  }

  lemma Proportion(d: real, n: real, x: real, y: real)
    requires d >= 0.0 && 0.0 <= x <= y <= n && n > 0.0
    ensures 0.0 <= d / n * x <= d / n * y <= d
  {
    var q := d / n;
    assert q >= 0.0;
    assert q * n == d;
    assert q * x <= q * y <= q * n by {
      assert q * (y - x) >= 0.0 && q * (n - y) >= 0.0;
    }
  }

  lemma InterpolatedOrdered(l: real, r: real, n: nat, s: nat, t: nat)
    requires l <= r && s <= t <= n && n > 0
    ensures l <= Interpolated(l, r, n, s) <= Interpolated(l, r, n, t) <= r
  {
    Proportion(r - l, n as real, s as real, t as real);
  }

  /** The value for position `k` of the run `i..j` between the kept values `left` and `right`: short runs
      take the nearer neighbour, long ones are interpolated. */
  function Filled(left: Option<real>, right: Option<real>, i: nat, j: nat, k: nat): real
    requires i <= k < j
  {
    match (left, right)
    case (None, None) => 0.0
    case (None, Some(r)) => r
    case (Some(l), None) => l
    case (Some(l), Some(r)) =>
      if j - i <= 2 then (if k + 1 - i <= j - k then l else r)
      else Interpolated(l, r, j - i + 1, k - i + 1)
  }

  /** Fillings stay between the neighbours and do not decrease. */
  lemma FilledOrdered(left: Option<real>, right: Option<real>, i: nat, j: nat, k: nat, l: nat)
    requires i <= k <= l < j
    requires left.Some? && right.Some? ==> left.value <= right.value
    ensures Filled(left, right, i, j, k) <= Filled(left, right, i, j, l)
    ensures left.Some? ==> left.value <= Filled(left, right, i, j, k)
    ensures right.Some? ==> Filled(left, right, i, j, l) <= right.value
  {
    hide Interpolated;
    if left.Some? && right.Some? && j - i > 2 {
      InterpolatedOrdered(left.value, right.value, j - i + 1, k - i + 1, l - i + 1);
    }
  }

  /** Between two kept neighbours: a run of one or two takes the value of the nearer neighbour, the left one on a tie;
      a longer run climbs from the left to the right neighbour in equal steps. Next to one neighbour only, a run takes
      its value, and without any it is zero. */
  lemma FilledMeans(left: Option<real>, right: Option<real>, i: nat, j: nat, k: nat)
    requires i <= k < j
    ensures left.None? && right.None? ==> Filled(left, right, i, j, k) == 0.0
    ensures left.None? && right.Some? ==> Filled(left, right, i, j, k) == right.value
    ensures left.Some? && right.None? ==> Filled(left, right, i, j, k) == left.value
    ensures left.Some? && right.Some? && j - i <= 2 ==>
              Filled(left, right, i, j, k) == if k - i == 1 then right.value else left.value
    ensures left.Some? && right.Some? && j - i > 2 ==>
              var step := Filled(left, right, i, j, i) - left.value;
              && right.value - Filled(left, right, i, j, j - 1) == step
              && (k + 1 < j ==> Filled(left, right, i, j, k + 1) - Filled(left, right, i, j, k) == step)
  {
    if left.Some? && right.Some? && j - i > 2 {
      hide Interpolated;
      EqualSteps(left.value, right.value, j - i + 1, 0);
      EqualSteps(left.value, right.value, j - i + 1, k - i + 1);
      EqualSteps(left.value, right.value, j - i + 1, j - i);
    }
  }

  /** From `l` to `r` in `n` steps of one size. */
  lemma EqualSteps(l: real, r: real, n: nat, t: nat)
    requires n > 0
    ensures Interpolated(l, r, n, 0) == l && Interpolated(l, r, n, n) == r
    ensures Interpolated(l, r, n, t + 1) - Interpolated(l, r, n, t) == (r - l) / n as real
  {
    var q := (r - l) / n as real;
    assert q * n as real == r - l;
    assert q * (t + 1) as real == q * t as real + q;
  }

  // ----- marking and filling

  method MarkNormal(n: nat, lis: seq<nat>) returns (isNormal: array<bool>)
    requires forall k :: 0 <= k < |lis| ==> lis[k] < n
    ensures fresh(isNormal) && isNormal.Length == n
    ensures forall i: nat :: i < n ==> (isNormal[i] <==> i in lis)
  {
    isNormal := new bool[n](_ => false);
    for k := 0 to |lis|
      invariant forall i: nat :: i < n ==> (isNormal[i] <==> i in lis[..k])
    {
      assert lis[..k + 1] == lis[..k] + [lis[k]];
      isNormal[lis[k]] := true;
    }
    assert lis[..|lis|] == lis;
  }

  /** The last kept value before `i`. */
  method LeftValue(isNormal: array<bool>, result: array<real>, i: nat) returns (left: Option<real>)
    requires i <= result.Length == isNormal.Length
    ensures left.None? ==> forall k :: 0 <= k < i ==> !isNormal[k]
    ensures left.Some? ==>
              exists k :: 0 <= k < i && isNormal[k] && left.value == result[k] && forall l :: k < l < i ==> !isNormal[l]
  {
    var k := i;
    while k > 0
      invariant 0 <= k <= i && forall l :: k <= l < i ==> !isNormal[l]
    {
      k := k - 1;
      if isNormal[k] {
        return Some(result[k]);
      }
    }
    left := None;
  }

  /** The first kept value from `j` on. */
  method RightValue(isNormal: array<bool>, result: array<real>, j: nat) returns (right: Option<real>)
    requires j <= result.Length == isNormal.Length
    ensures right.None? ==> forall k :: j <= k < result.Length ==> !isNormal[k]
    ensures right.Some? ==>
              exists k ::
                j <= k < result.Length && isNormal[k] && right.value == result[k] && forall l :: j <= l < k ==>
                  !isNormal[l]
  {
    for k := j to result.Length
      invariant forall l :: j <= l < k ==> !isNormal[l]
    {
      if isNormal[k] {
        return Some(result[k]);
      }
    }
    right := None;
  }

  /** Replace the run `i..j`. */
  method FillRun(result: array<real>, left: Option<real>, right: Option<real>, i: nat, j: nat)
    requires i < j <= result.Length
    modifies result
    ensures forall k ::
              0 <= k < result.Length ==>
                result[k] == if i <= k < j then Filled(left, right, i, j, k) else old(result[k])
  {
    var anomalyCount := j - i;
    if anomalyCount <= 2 {
      for k := i to j
        invariant forall l ::
                  0 <= l < result.Length ==>
                    result[l] == if i <= l < k then Filled(left, right, i, j, l) else old(result[l])
      {
        var newVal;
        match (left, right) {
          case (None, Some(r)) => newVal := r;
          case (Some(l), None) => newVal := l;
          case (Some(l), Some(r)) =>
            var leftDist := k - (i - 1);
            var rightDist := j - k;
            newVal := if leftDist <= rightDist then l else r;
          case (None, None) => newVal := 0.0;
        }
        result[k] := newVal;
      }
    } else {
      match (left, right) {
        case (Some(l), Some(r)) =>
          var step := (r - l) / (anomalyCount + 1) as real;
          for k := i to j
            invariant forall m ::
                      0 <= m < result.Length ==>
                        result[m] == if i <= m < k then Filled(left, right, i, j, m) else old(result[m])
          {
            result[k] := l + step * (k - i + 1) as real;
          }
        case (Some(l), None) => FillWith(result, l, i, j);
        case (None, Some(r)) => FillWith(result, r, i, j);
        case (None, None) => FillWith(result, 0.0, i, j);
      }
    }
  }

  method FillWith(result: array<real>, x: real, i: nat, j: nat)
    requires i <= j <= result.Length
    modifies result
    ensures forall k :: 0 <= k < result.Length ==> result[k] == if i <= k < j then x else old(result[k])
  {
    for k := i to j
      invariant forall l :: 0 <= l < result.Length ==> result[l] == if i <= l < k then x else old(result[l])
    {
      result[k] := x;
    }
  }

  /** Up to `i`: in order, and nothing above a value still to come that is kept. */
  ghost predicate RepairedUpTo(data: seq<real>, kept: seq<nat>, result: seq<real>, i: nat) {
    && |result| == |data| && i <= |data|
    && NonDecreasing(result[..i])
    && result[i..] == data[i..]
    && (forall k: nat :: k < |data| && k in kept ==> result[k] == data[k])
    && (forall k: nat, l: nat :: k < i <= l < |data| && l in kept ==> result[k] <= data[l])
  }

  lemma KeepOne(data: seq<real>, kept: seq<nat>, result: seq<real>, i: nat)
    requires RepairedUpTo(data, kept, result, i) && i < |data| && i in kept && Chain(data, kept)
    ensures RepairedUpTo(data, kept, result, i + 1)
  {
    assert result[i] == result[i..][0] == data[i];
    ChainOrder(data, kept);
    forall k, l | 0 <= k < l < i + 1
      ensures result[k] <= result[l]
    {
      if l < i {
        assert result[..i][k] <= result[..i][l];
      }
    }
    assert result[i + 1..] == result[i..][1..] == data[i..][1..] == data[i + 1..];
  }

  lemma ChainOrder(data: seq<real>, kept: seq<nat>)
    requires Chain(data, kept)
    ensures forall x: nat, y: nat :: x in kept && y in kept && x < y ==> y < |data| && data[x] <= data[y]
  {
    forall x: nat, y: nat | x in kept && y in kept && x < y
      ensures y < |data| && data[x] <= data[y]
    {
      var k :| 0 <= k < |kept| && kept[k] == x;
      var l :| 0 <= l < |kept| && kept[l] == y;
      assert k < l || l < k;
    }
  }

  /** A maximal run of positions that are not kept, filled from its neighbours. */
  lemma RunRepaired(data: seq<real>, kept: seq<nat>, before: seq<real>, after: seq<real>, i: nat, j: nat,
                    left: Option<real>, right: Option<real>)
    requires RepairedUpTo(data, kept, before, i) && Chain(data, kept) && i < j <= |data|
    requires forall k: nat :: i <= k < j ==> k !in kept
    requires i > 0 ==> (i - 1) in kept
    requires j < |data| ==> j in kept
    requires left == if i == 0 then None else Some(before[i - 1])
    requires right == if j == |data| then None else Some(before[j])
    requires |after| == |data|
    requires forall k :: 0 <= k < |data| ==> after[k] == if i <= k < j then Filled(left, right, i, j, k) else before[k]
    ensures RepairedUpTo(data, kept, after, j)
  {
    ChainOrder(data, kept);
    if j < |data| {
      assert before[j] == before[i..][j - i] == data[j];
    }
    forall k, l | 0 <= k < l < j
      ensures after[k] <= after[l]
    {
      RunOrdered(data, kept, before, after, i, j, left, right, k, l);
    }
    forall k | j <= k < |data|
      ensures after[k] == data[k]
    {
      assert before[k] == before[i..][k - i] == data[k];
    }
    forall k: nat, l: nat | k < j <= l < |data| && l in kept
      ensures after[k] <= data[l]
    {
      if k >= i {
        FilledOrdered(left, right, i, j, k, k);
      }
    }
  }

  lemma RunOrdered(data: seq<real>, kept: seq<nat>, before: seq<real>, after: seq<real>, i: nat, j: nat,
                   left: Option<real>, right: Option<real>, k: nat, l: nat)
    requires RepairedUpTo(data, kept, before, i) && i < j <= |data| && k < l < j
    requires i > 0 ==> (i - 1) in kept
    requires j < |data| ==> j in kept && before[j] == data[j]
    requires left == if i == 0 then None else Some(before[i - 1])
    requires right == if j == |data| then None else Some(before[j])
    requires |after| == |data|
    requires forall k :: 0 <= k < |data| ==> after[k] == if i <= k < j then Filled(left, right, i, j, k) else before[k]
    ensures after[k] <= after[l]
  {
    if l < i {
      assert before[..i][k] <= before[..i][l];
    } else {
      if k < i {
        FilledOrdered(left, right, i, j, l, l);
        assert k < i - 1 ==> before[..i][k] <= before[..i][i - 1];
      } else {
        FilledOrdered(left, right, i, j, k, l);
      }
    }
  }

  /** A maximal run of positions that are not kept. */
  ghost predicate MaximalRun(kept: seq<nat>, n: nat, i: nat, j: nat) {
    && i < j <= n
    && (forall k: nat :: i <= k < j ==> k !in kept)
    && (i > 0 ==> (i - 1) in kept)
    && (j < n ==> j in kept)
  }

  /** The run has the values its kept neighbours give it. */
  ghost predicate RunFilled(data: seq<real>, result: seq<real>, i: nat, j: nat)
    requires i < j <= |data| == |result|
  {
    var left := if i == 0 then None else Some(data[i - 1]);
    var right := if j == |data| then None else Some(data[j]);
    forall k :: i <= k < j ==> result[k] == Filled(left, right, i, j, k)
  }

  ghost predicate RunsFilled(data: seq<real>, kept: seq<nat>, result: seq<real>, n: nat) {
    && |result| == |data|
    && forall i: nat, j: nat :: j <= n && MaximalRun(kept, |data|, i, j) ==> RunFilled(data, result, i, j)
  }

  lemma KeepFilled(data: seq<real>, kept: seq<nat>, result: seq<real>, i: nat)
    requires RunsFilled(data, kept, result, i) && i in kept
    ensures RunsFilled(data, kept, result, i + 1)
  {
    hide RunFilled;
  }

  /** The only maximal run that ends behind `i` and not behind `j` is the one between them. */
  lemma OneRun(kept: seq<nat>, n: nat, i: nat, j: nat, h: nat, e: nat)
    requires MaximalRun(kept, n, i, j) && MaximalRun(kept, n, h, e) && i < e <= j
    ensures h == i && e == j
  {
    assert h < i ==> (i - 1) !in kept;
  }

  lemma RunNowFilled(data: seq<real>, kept: seq<nat>, before: seq<real>, after: seq<real>, i: nat, j: nat)
    requires RunsFilled(data, kept, before, i) && MaximalRun(kept, |data|, i, j) && |after| == |data|
    requires RunFilled(data, after, i, j) && forall k :: 0 <= k < i ==> after[k] == before[k]
    ensures RunsFilled(data, kept, after, j)
  {
    hide MaximalRun, Filled;
    forall h: nat, e: nat | e <= j && MaximalRun(kept, |data|, h, e)
      ensures h < e <= |data| && RunFilled(data, after, h, e)
    {
      RunInside(kept, |data|, h, e);
      if e > i {
        OneRun(kept, |data|, i, j, h, e);
      } else {
        assert RunFilled(data, before, h, e);
      }
    }
  }

  lemma RunInside(kept: seq<nat>, n: nat, i: nat, j: nat)
    requires MaximalRun(kept, n, i, j)
    ensures i < j <= n
  {
  }

  /** The neighbours of a run are as they were in the data. */
  lemma NeighboursKept(data: seq<real>, kept: seq<nat>, before: seq<real>, after: seq<real>, i: nat, j: nat,
                       left: Option<real>,
                       right: Option<real>)
    requires RepairedUpTo(data, kept, before, i) && MaximalRun(kept, |data|, i, j)
    requires left == if i == 0 then None else Some(before[i - 1])
    requires right == if j == |data| then None else Some(before[j])
    requires |after| == |data| && forall k :: i <= k < j ==> after[k] == Filled(left, right, i, j, k)
    ensures RunFilled(data, after, i, j)
  {
    hide Filled, NonDecreasing;
  }

  // ----- the whole repair

  /** Truncation toward zero, the source's `trunc() as i64`. */
  function Trunc(x: real): int {
    if x >= 0.0 then x.Floor else -((-x).Floor)
  }

  lemma TruncMonotone(x: real, y: real)
    requires x <= y
    ensures Trunc(x) <= Trunc(y)
  {
  }

  /** `n` is `x` without its fraction. */
  ghost predicate TruncatesTo(x: real, n: int) {
    if x >= 0.0 then n as real <= x < n as real + 1.0 else n as real - 1.0 < x <= n as real
  }

  predicate Whole(x: real) {
    x.Floor as real == x
  }

  lemma TruncMeans(x: real)
    ensures TruncatesTo(x, Trunc(x)) && forall n: int :: TruncatesTo(x, n) ==> n == Trunc(x)
  {
  }

  function Unchanged(a: seq<real>, b: seq<real>): set<nat>
    requires |a| == |b|
  {
    set k: nat | k < |a| && a[k] == b[k]
  }

  /** Nobody can repair the sequence by changing fewer positions. */
  ghost predicate FewestChanges(data: seq<real>, repaired: seq<real>) {
    && |repaired| == |data|
    && forall other ::
         |other| == |data| && NonDecreasing(other) ==> |Unchanged(data, other)| <= |Unchanged(data, repaired)|
  }

  /** The positions of a set, ascending, below `n`. */
  ghost function Positions(s: set<nat>, n: nat): (p: seq<nat>)
  {
    if n == 0 then [] else Positions(s, n - 1) + (if n - 1 in s then [n - 1] else [])
  }

  lemma {:induction false} PositionsAre(s: set<nat>, n: nat)
    ensures forall k: nat :: k in Positions(s, n) <==> k in s && k < n
    ensures forall i, j :: 0 <= i < j < |Positions(s, n)| ==> Positions(s, n)[i] < Positions(s, n)[j]
  {
    if n > 0 {
      PositionsAre(s, n - 1);
      var p := Positions(s, n - 1);
      assert forall i :: 0 <= i < |p| ==> p[i] in p;
    }
  }

  /** What an ordered sequence shares with the data is a chain of it. */
  lemma SharedIsChain(data: seq<real>, other: seq<real>)
    requires |other| == |data| && NonDecreasing(other)
    ensures Chain(data, Positions(Unchanged(data, other), |data|))
    ensures |Positions(Unchanged(data, other), |data|)| == |Unchanged(data, other)|
  {
    var s := Unchanged(data, other);
    var c := Positions(s, |data|);
    PositionsAre(s, |data|);
    NoDupSetSize(c);
    assert Elements(c) == s;
    forall k | 0 <= k < |c|
      ensures c[k] < |data| && data[c[k]] == other[c[k]]
    {
      assert c[k] in c;
    }
  }

  /** Keeping a longest chain means changing the fewest positions. */
  lemma LongestIsFewest(data: seq<real>, kept: seq<nat>, repaired: seq<real>)
    requires Longest(data, kept) && |repaired| == |data| && forall k: nat :: k in kept ==> repaired[k] == data[k]
    ensures FewestChanges(data, repaired)
  {
    forall k: nat | k in kept
      ensures k in Unchanged(data, repaired)
    {
    }
    assert NoDup(kept);
    NoDupSetSize(kept);
    assert Elements(kept) <= Unchanged(data, repaired);
    SubsetSize(Elements(kept), Unchanged(data, repaired));
    forall other | |other| == |data| && NonDecreasing(other)
      ensures |Unchanged(data, other)| <= |Unchanged(data, repaired)|
    {
      SharedIsChain(data, other);
    }
  }

  lemma {:induction false} SubsetSize<T>(s: set<T>, t: set<T>)
    requires s <= t
    ensures |s| <= |t|
    decreases |s|
  {
    if s != {} {
      var x :| x in s;
      SubsetSize(s - {x}, t - {x});
    }
  }

  /** The repaired sequence keeps the first of the longest non-decreasing subsequences, is in order, and differs from
      the data in as few positions as any sequence in order can; what is not kept is filled from its neighbours. */
  ghost predicate Repaired(data: seq<real>, kept: seq<nat>, repaired: seq<real>) {
    && |repaired| == |data|
    && FirstLongest(data, kept)
    && (forall k: nat :: k in kept ==> k < |data| && repaired[k] == data[k])
    && NonDecreasing(repaired)
    && FewestChanges(data, repaired)
    && RunsFilled(data, kept, repaired, |data|)
  }

  ghost predicate Marks(isNormal: seq<bool>, lis: seq<nat>) {
    forall k: nat :: k < |isNormal| ==> (isNormal[k] <==> k in lis)
  }

  /** Fill the maximal run that starts at `i`; its end. */
  method RepairRun(data: seq<real>, lis: seq<nat>, isNormal: array<bool>, result: array<real>, i: nat) returns (j: nat)
    requires Chain(data, lis) && isNormal.Length == result.Length == |data| && Marks(isNormal[..], lis)
    requires RepairedUpTo(data, lis, result[..], i) && RunsFilled(data, lis, result[..], i)
    requires i < |data| && !isNormal[i] && (i > 0 ==> isNormal[i - 1])
    modifies result
    ensures i < j <= |data| && (j < |data| ==> isNormal[j])
    ensures RepairedUpTo(data, lis, result[..], j) && RunsFilled(data, lis, result[..], j)
  {
    hide RepairedUpTo, Chain, Filled, RunsFilled, RunFilled;
    var n := |data|;
    ghost var marks, before := isNormal[..], result[..];
    j := i;
    while j < n && !isNormal[j]
      invariant i <= j <= n
      invariant forall k: nat :: i <= k < j ==> !marks[k]
    {
      j := j + 1;
    }
    var left := LeftValue(isNormal, result, i);
    var right := RightValue(isNormal, result, j);
    FillRun(result, left, right, i, j);
    assert isNormal[..] == marks;
    RunRepaired(data, lis, before, result[..], i, j, left, right);
    NeighboursKept(data, lis, before, result[..], i, j, left, right);
    RunNowFilled(data, lis, before, result[..], i, j);
  }

  method RepairRuns(data: seq<real>, lis: seq<nat>) returns (result: array<real>)
    requires Chain(data, lis)
    ensures fresh(result) && RepairedUpTo(data, lis, result[..], |data|) && RunsFilled(data, lis, result[..], |data|)
  {
    var n := |data|;
    KeptInRange(data, lis);
    var isNormal := MarkNormal(n, lis);
    result := new real[n](k requires 0 <= k < n => data[k]);
    assert result[..] == data;
    NothingRepaired(data, lis);
    hide RepairedUpTo, Chain, RunsFilled;
    var i := 0;
    while i < n
      modifies result
      invariant i <= n && RepairedUpTo(data, lis, result[..], i) && RunsFilled(data, lis, result[..], i)
      invariant i > 0 && i < n && !isNormal[i] ==> isNormal[i - 1]
    {
      if !isNormal[i] {
        i := RepairRun(data, lis, isNormal, result, i);
      } else {
        KeepOne(data, lis, result[..], i);
        KeepFilled(data, lis, result[..], i);
        i := i + 1;
      }
    }
  }

  lemma NothingRepaired(data: seq<real>, kept: seq<nat>)
    ensures RepairedUpTo(data, kept, data, 0) && RunsFilled(data, kept, data, 0)
  {
  }

  /** Repair, then truncate to milliseconds: the result is in order. */
  method FixTimestamp(data: seq<real>) returns (fixed: seq<int>, ghost repaired: seq<real>, ghost kept: seq<nat>)
    ensures Repaired(data, kept, repaired)
    ensures fixed == Truncated(repaired)
    ensures |fixed| == |data| && forall k :: 0 <= k < |data| ==> TruncatesTo(repaired[k], fixed[k])
    ensures forall k, l :: 0 <= k < l < |fixed| ==> fixed[k] <= fixed[l]
    ensures forall k: nat :: k in kept && Whole(data[k]) ==> fixed[k] as real == data[k]
  {
    if |data| == 0 {
      EmptyData();
      return [], [], [];
    }
    var lis := LongestChain(data);
    var result := RepairRuns(data, lis);
    hide FewestChanges, Chain, RunsFilled;
    repaired, kept := result[..], lis;
    assert repaired[..|data|] == repaired;
    KeptInRange(data, lis);
    LongestIsFewest(data, lis, repaired);
    fixed := Truncated(result[..]);
    TruncKeepsOrder(repaired);
    WholeTimesStay(data, kept, repaired);
  }

  /** A kept time that is a whole number of milliseconds is returned as it is. */
  lemma WholeTimesStay(data: seq<real>, kept: seq<nat>, repaired: seq<real>)
    requires |repaired| == |data| && forall k: nat :: k in kept ==> k < |data| && repaired[k] == data[k]
    ensures forall k :: 0 <= k < |data| ==> TruncatesTo(repaired[k], Truncated(repaired)[k])
    ensures forall k: nat :: k in kept && Whole(data[k]) ==> Truncated(repaired)[k] as real == data[k]
  {
    hide Trunc, TruncatesTo, Whole;
    forall k | 0 <= k < |data|
      ensures TruncatesTo(repaired[k], Trunc(repaired[k]))
      ensures Whole(repaired[k]) ==> Trunc(repaired[k]) as real == repaired[k]
    {
      TruncMeans(repaired[k]);
      if Whole(repaired[k]) {
        TruncWhole(repaired[k]);
      }
    }
  }

  lemma TruncWhole(x: real)
    requires Whole(x)
    ensures Trunc(x) as real == x
  {
    assert (-x).Floor == -(x.Floor);
  }

  function Truncated(s: seq<real>): (t: seq<int>)
    ensures |t| == |s|
  {
    seq(|s|, k requires 0 <= k < |s| => Trunc(s[k]))
  }

  lemma TruncKeepsOrder(s: seq<real>)
    requires NonDecreasing(s)
    ensures forall k, l :: 0 <= k < l < |s| ==> Truncated(s)[k] <= Truncated(s)[l]
  {
    forall k, l | 0 <= k < l < |s|
      ensures Trunc(s[k]) <= Trunc(s[l])
    {
      TruncMonotone(s[k], s[l]);
    }
  }

  lemma KeptInRange(data: seq<real>, kept: seq<nat>)
    requires Chain(data, kept)
    ensures forall k: nat :: k in kept ==> k < |data|
  {
  }

  /** A chain is no longer than the data. */
  lemma {:induction false} ChainFits(data: seq<real>, c: seq<nat>, k: nat)
    requires Chain(data, c) && k <= |c|
    ensures k > 0 ==> k <= c[k - 1] + 1 <= |data|
  {
    if k > 1 {
      ChainFits(data, c, k - 1);
    }
  }

  lemma EmptyData()
    ensures Repaired([], [], [])
  {
    forall other | Chain([], other)
      ensures other == []
    {
      ChainFits([], other, |other|);
    }
    assert FirstLongest([], []);
    hide FirstLongest;
    LongestIsFewest([], [], []);
  }
}
