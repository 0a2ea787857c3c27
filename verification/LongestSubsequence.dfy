/** The longest non-decreasing subsequence of a timestamp sequence, by dynamic programming. */
module LongestSubsequence {
  import opened Prelude

  /** Increasing positions whose values do not decrease. */
  ghost predicate Chain(data: seq<real>, c: seq<nat>) {
    && (forall k :: 0 <= k < |c| ==> c[k] < |data|)
    && (forall k, l :: 0 <= k < l < |c| ==> c[k] < c[l] && data[c[k]] <= data[c[l]])
  }

  ghost predicate Longest(data: seq<real>, c: seq<nat>) {
    Chain(data, c) && forall other :: Chain(data, other) ==> |other| <= |c|
  }

  /** The chains agree behind position `k`, and there `c` has the earlier element. */
  ghost predicate EarlierAt(c: seq<nat>, other: seq<nat>, k: nat) {
    k < |c| == |other| && c[k + 1..] == other[k + 1..] && c[k] < other[k]
  }

  ghost predicate Earlier(c: seq<nat>, other: seq<nat>) {
    exists k: nat :: EarlierAt(c, other, k)
  }

  /** Of all longest chains the one whose elements, read from the end, come earliest. */
  ghost predicate FirstLongest(data: seq<real>, c: seq<nat>) {
    Longest(data, c) && forall other :: Longest(data, other) ==> other == c || Earlier(c, other)
  }

  /** There is only one. */
  lemma FirstLongestUnique(data: seq<real>, c: seq<nat>, d: seq<nat>)
    requires FirstLongest(data, c) && FirstLongest(data, d)
    ensures c == d
  {
    if c != d {
      var k: nat :| EarlierAt(c, d, k);
      var l: nat :| EarlierAt(d, c, l);
      NotBothEarlier(c, d, k, l);
    }
  }

  lemma TailsAgree(c: seq<nat>, d: seq<nat>, k: nat, l: nat)
    requires EarlierAt(c, d, k) && k < l < |c|
    ensures c[l] == d[l]
  {
    assert c[k + 1..][l - k - 1] == d[k + 1..][l - k - 1];
  }

  lemma NotBothEarlier(c: seq<nat>, d: seq<nat>, k: nat, l: nat)
    requires EarlierAt(c, d, k)
    ensures !EarlierAt(d, c, l)
  {
    if EarlierAt(d, c, l) && k < l {
      TailsAgree(c, d, k, l);
    }
    if EarlierAt(d, c, l) && l < k {
      TailsAgree(d, c, l, k);
    }
  }

  /** Length and predecessor of the chain ending at `i` after the candidates below `k` were tried. */
  ghost function Best(data: seq<real>, i: nat, k: nat): (r: (nat, Option<nat>))
    requires k <= i < |data|
    ensures r.0 >= 1 && (r.1.Some? ==> r.1.value < k)
    decreases i, k
  {
    if k == 0 then (1, None) else
      var b := Best(data, i, k - 1);
      var candidate := Best(data, k - 1, k - 1).0 + 1;
      if data[k - 1] <= data[i] && candidate > b.0 then (candidate, Some(k - 1)) else b
  }

  ghost function Length(data: seq<real>, i: nat): nat
    requires i < |data|
  {
    Best(data, i, i).0
  }

  ghost function Parent(data: seq<real>, i: nat): (p: Option<nat>)
    requires i < |data|
    ensures p.Some? ==> p.value < i
  {
    Best(data, i, i).1
  }

  /** The chain the parents spell out. */
  ghost function ChainTo(data: seq<real>, i: nat): (c: seq<nat>)
    requires i < |data|
    ensures c != [] && c[|c| - 1] == i
  {
    match Parent(data, i)
    case None => [i]
    case Some(p) => ChainTo(data, p) + [i]
  }

  lemma {:induction false} BestIs(data: seq<real>, i: nat, k: nat)
    requires k <= i < |data|
    ensures match Best(data, i, k)
            case (len, None) => len == 1
            case (len, Some(p)) => data[p] <= data[i] && len == Length(data, p) + 1
    ensures forall j :: 0 <= j < k && data[j] <= data[i] ==> Length(data, j) + 1 <= Best(data, i, k).0
    decreases k
  {
    if k > 0 {
      BestIs(data, i, k - 1);
    }
  }

  /** The predecessor is the first position that makes the chain as long as it gets. */
  lemma {:induction false} BestIsFirst(data: seq<real>, i: nat, k: nat)
    requires k <= i < |data|
    ensures var (len, p) := Best(data, i, k);
            && (p.Some? ==> forall j :: 0 <= j < p.value && data[j] <= data[i] ==> Length(data, j) + 1 < len)
            && (p.None? ==> len == 1)
    decreases k
  {
    if k > 0 {
      BestIsFirst(data, i, k - 1);
      BestIs(data, i, k - 1);
    }
  }

  lemma {:induction false} ChainToIs(data: seq<real>, i: nat)
    requires i < |data|
    ensures Chain(data, ChainTo(data, i)) && |ChainTo(data, i)| == Length(data, i)
  {
    BestIs(data, i, i);
    if Parent(data, i).Some? {
      ChainToIs(data, Parent(data, i).value);
    }
  }

  lemma {:induction false} NoLongerChain(data: seq<real>, c: seq<nat>)
    requires Chain(data, c) && c != []
    ensures |c| <= Length(data, c[|c| - 1])
  {
    var k := |c| - 1;
    BestIs(data, c[k], c[k]);
    if k > 0 {
      NoLongerChain(data, c[..k]);
    }
  }

  /** Among the chains of its length that end where it does, the parents' chain comes earliest. */
  lemma {:induction false} ChainToFirst(data: seq<real>, i: nat, other: seq<nat>)
    requires i < |data| && Chain(data, other) && |other| == Length(data, i) && other[|other| - 1] == i
    ensures other == ChainTo(data, i) || Earlier(ChainTo(data, i), other)
  {
    hide Best, Length, Chain, ChainTo, Parent;
    ChainToIs(data, i);
    var n := |other|;
    if Parent(data, i).Some? {
      var p := Parent(data, i).value;
      var rest := other[..n - 1];
      ChainEnds(data, i, p);
      ChainToIs(data, p);
      BeforeLast(data, i, p, other);
      if rest[n - 2] == p {
        ChainToFirst(data, p, rest);
        assert other == rest + [i];
        EarlierStays(ChainTo(data, p), rest, i);
      } else {
        assert ChainTo(data, i)[n - 1..] == [i] == other[n - 1..];
        assert EarlierAt(ChainTo(data, i), other, n - 2);
      }
    } else {
      ChainAlone(data, i);
      assert other == [i];
    }
  }

  lemma ChainAlone(data: seq<real>, i: nat)
    requires i < |data| && Parent(data, i) == None
    ensures ChainTo(data, i) == [i] && Length(data, i) == 1
  {
    BestIsFirst(data, i, i);
  }

  /** What comes before the last element is as long as the parent's chain, and ends no earlier. */
  lemma BeforeLast(data: seq<real>, i: nat, p: nat, other: seq<nat>)
    requires i < |data| && Parent(data, i) == Some(p)
    requires Chain(data, other) && |other| == Length(data, i) && other[|other| - 1] == i
    ensures |other| >= 2 && p < i && Length(data, p) == |other| - 1
    ensures Chain(data, other[..|other| - 1]) && p <= other[|other| - 2]
  {
    hide Best;
    BestIs(data, i, i);
    BestIsFirst(data, i, i);
    ChainToIs(data, p);
    var (n, rest) := (|other|, other[..|other| - 1]);
    var q := rest[n - 2];
    assert data[q] <= data[i] && q < i;
    NoLongerChain(data, rest);
  }

  lemma ChainEnds(data: seq<real>, i: nat, p: nat)
    requires i < |data| && Parent(data, i) == Some(p)
    ensures p < i && ChainTo(data, i) == ChainTo(data, p) + [i]
  {
  }

  lemma EarlierStays(c: seq<nat>, other: seq<nat>, i: nat)
    ensures Earlier(c, other) ==> Earlier(c + [i], other + [i])
  {
    if Earlier(c, other) {
      var k: nat :| EarlierAt(c, other, k);
      assert (c + [i])[k + 1..] == c[k + 1..] + [i] && (other + [i])[k + 1..] == other[k + 1..] + [i];
      assert EarlierAt(c + [i], other + [i], k);
    }
  }

  /** The first position where a longest chain ends. */
  ghost predicate FirstEnd(data: seq<real>, end: nat) {
    && end < |data|
    && (forall i :: 0 <= i < |data| ==> Length(data, i) <= Length(data, end))
    && forall i :: 0 <= i < end ==> Length(data, i) < Length(data, end)
  }

  lemma EndsThere(data: seq<real>, end: nat, i: nat)
    requires FirstEnd(data, end) && i < |data|
    ensures Length(data, i) <= Length(data, end) && (i < end ==> Length(data, i) < Length(data, end))
  {
  }

  /** The chain to the first end of a longest chain is the first of all. */
  lemma FirstOfAll(data: seq<real>, end: nat)
    requires FirstEnd(data, end)
    ensures FirstLongest(data, ChainTo(data, end))
  {
    hide Best, Length, ChainTo, Chain, Earlier, FirstEnd;
    EndBelow(data, end);
    ChainToIs(data, end);
    forall other | Chain(data, other)
      ensures |other| <= Length(data, end)
    {
      if other != [] {
        NoLongerChain(data, other);
        ChainBelow(data, other);
        EndsThere(data, end, other[|other| - 1]);
      }
    }
    forall other | Longest(data, other)
      ensures other == ChainTo(data, end) || Earlier(ChainTo(data, end), other)
    {
      assert |other| == |ChainTo(data, end)|;
      EndsLater(data, end, other);
    }
  }

  lemma EndBelow(data: seq<real>, end: nat)
    requires FirstEnd(data, end)
    ensures end < |data|
  {
  }

  lemma ChainBelow(data: seq<real>, c: seq<nat>)
    requires Chain(data, c)
    ensures forall k :: 0 <= k < |c| ==> c[k] < |data|
  {
  }

  lemma EndsLater(data: seq<real>, end: nat, other: seq<nat>)
    requires FirstEnd(data, end)
    requires end < |data| && Chain(data, other) && |other| == |ChainTo(data, end)| == Length(data, end)
    ensures other == ChainTo(data, end) || Earlier(ChainTo(data, end), other)
  {
    hide Best, Length, Chain, ChainTo, Earlier, FirstEnd;
    ChainBelow(data, other);
    NoLongerChain(data, other);
    EndsThere(data, end, other[|other| - 1]);
    if other[|other| - 1] == end {
      ChainToFirst(data, end, other);
    } else {
      LastEarlier(ChainTo(data, end), other);
    }
  }

  lemma LastEarlier(c: seq<nat>, other: seq<nat>)
    requires 0 < |c| == |other| && c[|c| - 1] < other[|c| - 1]
    ensures Earlier(c, other)
  {
    assert c[|c|..] == other[|c|..];
    assert EarlierAt(c, other, |c| - 1);
  }

  method FillChains(data: seq<real>) returns (dp: array<nat>, parent: array<Option<nat>>)
    ensures fresh(dp) && fresh(parent) && dp.Length == parent.Length == |data|
    ensures forall i :: 0 <= i < |data| ==> dp[i] == Length(data, i) && parent[i] == Parent(data, i)
  {
    hide Best;
    dp := new nat[|data|](_ => 1);
    parent := new Option<nat>[|data|](_ => None);
    for i := 0 to |data|
      invariant forall k :: 0 <= k < i ==> dp[k] == Length(data, k) && parent[k] == Parent(data, k)
      invariant forall k :: i <= k < |data| ==> dp[k] == 1 && parent[k] == None
    {
      BestStep(data, i, 0);
      for j := 0 to i
        invariant forall k :: 0 <= k < i ==> dp[k] == Length(data, k) && parent[k] == Parent(data, k)
        invariant forall k :: i < k < |data| ==> dp[k] == 1 && parent[k] == None
        invariant (dp[i], parent[i]) == Best(data, i, j)
      {
        BestStep(data, i, j + 1);
        if data[j] <= data[i] && dp[j] + 1 > dp[i] {
          dp[i] := dp[j] + 1;
          parent[i] := Some(j);
        }
      }
    }
  }

  lemma BestStep(data: seq<real>, i: nat, k: nat)
    requires k <= i < |data|
    ensures Best(data, i, 0) == (1, None)
    ensures k > 0 ==> Best(data, i, k) == if data[k - 1] <= data[i] && Length(data, k - 1) + 1 > Best(data, i, k - 1).0
                                          then (Length(data, k - 1) + 1, Some(k - 1)) else Best(data, i, k - 1)
  {
  }

  function Reversed<T>(s: seq<T>): (r: seq<T>)
    ensures |r| == |s|
  {
    seq(|s|, k requires 0 <= k < |s| => s[|s| - 1 - k])
  }

  /** The first position that ends a longest chain. */
  method LongestEnd(dp: array<nat>) returns (maxIdx: nat)
    requires dp.Length > 0
    ensures maxIdx < dp.Length && (forall k :: 0 <= k < dp.Length ==> dp[k] <= dp[maxIdx])
    ensures forall k :: 0 <= k < maxIdx ==> dp[k] < dp[maxIdx]
  {
    maxIdx := 0;
    for k := 0 to dp.Length
      invariant maxIdx < dp.Length
      invariant forall l :: 0 <= l < k ==> dp[l] <= dp[maxIdx]
      invariant forall l :: 0 <= l < maxIdx ==> dp[l] < dp[maxIdx]
      invariant k == 0 ==> maxIdx == 0
    {
      if dp[k] > dp[maxIdx] {
        maxIdx := k;
      }
    }
  }

  /** The positions of the first of the longest non-decreasing subsequences. */
  method LongestChain(data: seq<real>) returns (lis: seq<nat>)
    requires data != []
    ensures FirstLongest(data, lis) && lis != []
  {
    var dp, parent := FillChains(data);
    var maxIdx := LongestEnd(dp);
    var pushed: seq<nat>, idx: Option<nat> := [], Some(maxIdx);
    while idx.Some?
      invariant idx.Some? ==> idx.value < |data| && ChainTo(data, maxIdx) == ChainTo(data, idx.value) + Reversed(pushed)
      invariant idx.None? ==> ChainTo(data, maxIdx) == Reversed(pushed)
      decreases if idx.Some? then idx.value + 1 else 0
    {
      var u := idx.value;
      assert Reversed(pushed + [u]) == [u] + Reversed(pushed);
      pushed := pushed + [u];
      idx := parent[u];
    }
    lis := Reversed(pushed);
    FirstOfAll(data, maxIdx);
  }
}
