/** Character error rate: edit distance by dynamic programming, and the counts read off its table. */
module CharacterErrorRate {
  import opened Prelude

  /** One edit on the way from the reference to the hypothesis. */
  datatype Edit = Keep | Substitute | Delete | Insert

  /** The edits turn `a` into `b`, first character first. */
  ghost predicate Transforms<T>(script: seq<Edit>, a: seq<T>, b: seq<T>)
    decreases |script|
  {
    if script == [] then a == [] && b == []
    else match script[0]
      case Keep => a != [] && b != [] && a[0] == b[0] && Transforms(script[1..], a[1..], b[1..])
      case Substitute => a != [] && b != [] && Transforms(script[1..], a[1..], b[1..])
      case Delete => a != [] && Transforms(script[1..], a[1..], b)
      case Insert => b != [] && Transforms(script[1..], a, b[1..])
  }

  ghost function Count(script: seq<Edit>, kind: Edit): nat {
    if script == [] then 0 else (if script[0] == kind then 1 else 0) + Count(script[1..], kind)
  }

  /** Every edit that is not a `Keep` costs one. */
  ghost function Cost(script: seq<Edit>): nat {
    Count(script, Substitute) + Count(script, Delete) + Count(script, Insert)
  }

  /** The distance recurrence, over the first `i` and the first `j` characters. */
  ghost function Distance<T>(a: seq<T>, b: seq<T>, i: nat, j: nat): nat
    requires i <= |a| && j <= |b|
    decreases i + j
  {
    if i == 0 then j
    else if j == 0 then i
    else Min(Min(Distance(a, b, i - 1, j) + 1, Distance(a, b, i, j - 1) + 1),
             Distance(a, b, i - 1, j - 1) + if a[i - 1] == b[j - 1] then 0 else 1)
  }

  lemma DistanceStep<T>(a: seq<T>, b: seq<T>, i: nat, j: nat)
    requires i <= |a| && j <= |b|
    ensures Distance(a, b, 0, j) == j && Distance(a, b, i, 0) == i
    ensures i > 0 && j > 0 ==>
              Distance(a, b, i, j)
              == Min(Min(Distance(a, b, i - 1, j) + 1, Distance(a, b, i, j - 1) + 1),
                     Distance(a, b, i - 1, j - 1) + if a[i - 1] == b[j - 1] then 0 else 1)
  {
    hide Distance;
    DistanceAtEnds(a, b, i, j);
    if i > 0 && j > 0 {
      DistanceInside(a, b, i, j);
    }
  }

  lemma DistanceAtEnds<T>(a: seq<T>, b: seq<T>, i: nat, j: nat)
    requires i <= |a| && j <= |b|
    ensures Distance(a, b, 0, j) == j && Distance(a, b, i, 0) == i
  {
  }

  lemma DistanceInside<T>(a: seq<T>, b: seq<T>, i: nat, j: nat)
    requires 0 < i <= |a| && 0 < j <= |b|
    ensures Distance(a, b, i, j)
            == Min(Min(Distance(a, b, i - 1, j) + 1, Distance(a, b, i, j - 1) + 1),
                   Distance(a, b, i - 1, j - 1) + if a[i - 1] == b[j - 1] then 0 else 1)
  {
  }

  /** One more character changes the distance by at most one. */
  lemma {:induction false} HypothesisStep<T>(a: seq<T>, b: seq<T>, i: nat, j: nat)
    requires i <= |a| && j < |b|
    ensures Distance(a, b, i, j) <= Distance(a, b, i, j + 1) + 1 && Distance(a, b, i, j + 1) <= Distance(a, b, i, j) + 1
    decreases i
  {
    if i > 0 {
      HypothesisStep(a, b, i - 1, j);
    }
  }

  lemma {:induction false} ReferenceStep<T>(a: seq<T>, b: seq<T>, i: nat, j: nat)
    requires i < |a| && j <= |b|
    ensures Distance(a, b, i, j) <= Distance(a, b, i + 1, j) + 1 && Distance(a, b, i + 1, j) <= Distance(a, b, i, j) + 1
    decreases j
  {
    if j > 0 {
      ReferenceStep(a, b, i, j - 1);
    }
  }

  /** Equal characters may be kept without looking at the table. */
  lemma MatchIsDiagonal<T>(a: seq<T>, b: seq<T>, i: nat, j: nat)
    requires 0 < i <= |a| && 0 < j <= |b| && a[i - 1] == b[j - 1]
    ensures Distance(a, b, i, j) == Distance(a, b, i - 1, j - 1)
  {
    hide Distance;
    DistanceStep(a, b, i, j);
    HypothesisStep(a, b, i - 1, j - 1);
    ReferenceStep(a, b, i - 1, j - 1);
  }

  /** No script is cheaper than the distance, from any point on. */
  lemma {:induction false} NoCheaperScript<T>(script: seq<Edit>, a: seq<T>, b: seq<T>, i: nat, j: nat)
    requires i <= |a| && j <= |b| && Transforms(script, a[i..], b[j..])
    ensures Distance(a, b, |a|, |b|) <= Distance(a, b, i, j) + Cost(script)
    decreases |script|
  {
    hide Distance;
    if script != [] {
      match script[0]
      case Keep =>
        DistanceStep(a, b, i + 1, j + 1);
        NoCheaperScript(script[1..], a, b, i + 1, j + 1);
      case Substitute =>
        DistanceStep(a, b, i + 1, j + 1);
        NoCheaperScript(script[1..], a, b, i + 1, j + 1);
      case Delete =>
        ReferenceStep(a, b, i, j);
        NoCheaperScript(script[1..], a, b, i + 1, j);
      case Insert =>
        HypothesisStep(a, b, i, j);
        NoCheaperScript(script[1..], a, b, i, j + 1);
    }
  }

  /** Deletions shorten, insertions lengthen, nothing else changes the length. */
  lemma {:induction false} ScriptLengths<T>(script: seq<Edit>, a: seq<T>, b: seq<T>)
    requires Transforms(script, a, b)
    ensures |a| + Count(script, Insert) == |b| + Count(script, Delete)
    decreases |script|
  {
    if script != [] {
      match script[0]
      case Keep => ScriptLengths(script[1..], a[1..], b[1..]);
      case Substitute => ScriptLengths(script[1..], a[1..], b[1..]);
      case Delete => ScriptLengths(script[1..], a[1..], b);
      case Insert => ScriptLengths(script[1..], a, b[1..]);
    }
  }

  /** The reported counts are those of a cheapest edit script. */
  ghost predicate Cheapest<T>(script: seq<Edit>, a: seq<T>, b: seq<T>) {
    && Transforms(script, a, b)
    && forall other :: Transforms(other, a, b) ==> Cost(script) <= Cost(other)
  }

  lemma DistanceIsCheapest<T>(script: seq<Edit>, a: seq<T>, b: seq<T>)
    requires Transforms(script, a, b) && Cost(script) <= Distance(a, b, |a|, |b|)
    ensures Cheapest(script, a, b)
  {
    forall other | Transforms(other, a, b)
      ensures Cost(script) <= Cost(other)
    {
      assert a[0..] == a && b[0..] == b;
      NoCheaperScript(other, a, b, 0, 0);
    }
  }

  lemma {:induction false} OnlyOne<T>(kind: Edit, a: seq<T>, b: seq<T>, n: nat)
    requires (kind == Insert && a == [] && |b| == n) || (kind == Delete && b == [] && |a| == n)
    ensures var script := seq(n, _ => kind);
            && Transforms(script, a, b)
            && (forall other: Edit :: Count(script, other) == if other == kind then n else 0)
  {
    var script := seq(n, _ => kind);
    if n > 0 {
      OnlyOne(kind, if kind == Delete then a[1..] else a, if kind == Insert then b[1..] else b, n - 1);
      assert script[1..] == seq(n - 1, _ => kind);
    }
  }

  // ----- which of the cheapest scripts

  /** The order in which the walk back tries its edits. */
  function Rank(e: Edit): nat {
    match e
    case Keep => 0
    case Substitute => 1
    case Delete => 2
    case Insert => 3
  }

  /** Read from the end, the scripts agree on the last `n` edits, and then `a` has the edit that is tried first. */
  ghost predicate AheadAt(a: seq<Edit>, b: seq<Edit>, n: nat) {
    && n < |a| && n < |b|
    && a[|a| - n..] == b[|b| - n..]
    && Rank(a[|a| - 1 - n]) < Rank(b[|b| - 1 - n])
  }

  ghost predicate Ahead(a: seq<Edit>, b: seq<Edit>) {
    exists n: nat :: AheadAt(a, b, n)
  }

  /** Of all cheapest scripts the one that, read from the end, keeps rather than substitutes, substitutes rather than
      deletes, and deletes rather than inserts. */
  ghost predicate FirstCheapest<T>(script: seq<Edit>, a: seq<T>, b: seq<T>) {
    && Cheapest(script, a, b)
    && forall other :: Cheapest(other, a, b) ==> other == script || Ahead(script, other)
  }

  /** There is only one. */
  lemma FirstIsUnique<T>(x: seq<Edit>, y: seq<Edit>, a: seq<T>, b: seq<T>)
    requires FirstCheapest(x, a, b) && FirstCheapest(y, a, b)
    ensures x == y
  {
    if x != y {
      var n: nat :| AheadAt(x, y, n);
      var m: nat :| AheadAt(y, x, m);
      NotBothAhead(x, y, n, m);
    }
  }

  lemma EndsAgree(x: seq<Edit>, y: seq<Edit>, n: nat, k: nat)
    requires AheadAt(x, y, n) && k < n
    ensures k < |x| && k < |y| && x[|x| - 1 - k] == y[|y| - 1 - k]
  {
    assert x[|x| - n..][n - 1 - k] == y[|y| - n..][n - 1 - k];
  }

  lemma NotBothAhead(x: seq<Edit>, y: seq<Edit>, n: nat, m: nat)
    requires AheadAt(x, y, n)
    ensures !AheadAt(y, x, m)
  {
    if AheadAt(y, x, m) && n < m {
      EndsAgree(y, x, m, n);
    }
    if AheadAt(y, x, m) && m < n {
      EndsAgree(x, y, n, m);
    }
  }

  /** How many characters of the reference, and of the hypothesis, the script uses up. */
  ghost function Uses(script: seq<Edit>): (nat, nat) {
    if script == [] then (0, 0) else
      var (m, n) := Uses(script[1..]);
      (m + if script[0] == Insert then 0 else 1, n + if script[0] == Delete then 0 else 1)
  }

  lemma {:induction false} UsesAll<T>(script: seq<Edit>, a: seq<T>, b: seq<T>)
    requires Transforms(script, a, b)
    ensures Uses(script) == (|a|, |b|)
    decreases |script|
  {
    if script != [] {
      match script[0]
      case Keep => UsesAll(script[1..], a[1..], b[1..]);
      case Substitute => UsesAll(script[1..], a[1..], b[1..]);
      case Delete => UsesAll(script[1..], a[1..], b);
      case Insert => UsesAll(script[1..], a, b[1..]);
    }
  }

  /** A script in two parts does its first part on the characters that part uses, and the second on the others. */
  lemma {:induction false} SplitScript<T>(x: seq<Edit>, y: seq<Edit>, a: seq<T>, b: seq<T>)
    requires Transforms(x + y, a, b)
    ensures var (p, q) := Uses(x);
            p <= |a| && q <= |b| && Transforms(x, a[..p], b[..q]) && Transforms(y, a[p..], b[q..])
    decreases |x|
  {
    if x == [] {
      assert x + y == y && a[0..] == a && b[0..] == b;
    } else {
      assert (x + y)[1..] == x[1..] + y && (x + y)[0] == x[0];
      var a', b' := if x[0] == Insert then a else a[1..], if x[0] == Delete then b else b[1..];
      SplitScript(x[1..], y, a', b');
      var (p, q) := Uses(x[1..]);
      if x[0] != Insert {
        assert a[1..][p..] == a[p + 1..] && a[..p + 1][1..] == a[1..][..p];
      }
      if x[0] != Delete {
        assert b[1..][q..] == b[q + 1..] && b[..q + 1][1..] == b[1..][..q];
      }
    }
  }

  /** What comes before a given end is a script for the characters before. */
  lemma FrontTransforms<T>(front: seq<Edit>, end: seq<Edit>, a: seq<T>, b: seq<T>, i: nat, j: nat)
    requires i <= |a| && j <= |b| && Transforms(front + end, a, b) && Transforms(end, a[i..], b[j..])
    ensures Transforms(front, a[..i], b[..j]) && Uses(front) == (i, j)
  {
    SplitScript(front, end, a, b);
    var (p, q) := Uses(front);
    UsesAll(end, a[p..], b[q..]);
    UsesAll(end, a[i..], b[j..]);
  }

  lemma {:induction false} CountConcat(x: seq<Edit>, y: seq<Edit>, kind: Edit)
    ensures Count(x + y, kind) == Count(x, kind) + Count(y, kind)
  {
    if x == [] {
      assert x + y == y;
    } else {
      assert (x + y)[1..] == x[1..] + y;
      CountConcat(x[1..], y, kind);
    }
  }

  lemma CostConcat(x: seq<Edit>, y: seq<Edit>)
    ensures Cost(x + y) == Cost(x) + Cost(y)
  {
    hide Count;
    CountConcat(x, y, Substitute);
    CountConcat(x, y, Delete);
    CountConcat(x, y, Insert);
  }

  lemma CostOne(e: Edit)
    ensures Cost([e]) == if e == Keep then 0 else 1
  {
    CountPush([], e);
    assert [e] + [] == [e];
  }

  lemma {:induction false} DistanceOfPrefixes<T>(a: seq<T>, b: seq<T>, m: nat, n: nat, i: nat, j: nat)
    requires i <= m <= |a| && j <= n <= |b|
    ensures Distance(a[..m], b[..n], i, j) == Distance(a, b, i, j)
    decreases i + j
  {
    hide Distance;
    DistanceStep(a, b, i, j);
    DistanceStep(a[..m], b[..n], i, j);
    if i > 0 && j > 0 {
      DistanceOfPrefixes(a, b, m, n, i - 1, j);
      DistanceOfPrefixes(a, b, m, n, i, j - 1);
      DistanceOfPrefixes(a, b, m, n, i - 1, j - 1);
    }
  }

  lemma ScriptOfPrefixes<T>(script: seq<Edit>, a: seq<T>, b: seq<T>, i: nat, j: nat)
    requires i <= |a| && j <= |b| && Transforms(script, a[..i], b[..j])
    ensures Distance(a, b, i, j) <= Cost(script)
  {
    hide Transforms, Distance, Count;
    var (x, y) := (a[..i], b[..j]);
    assert x[0..] == x && y[0..] == y;
    NoCheaperScript(script, x, y, 0, 0);
    DistanceOfPrefixes(a, b, i, j, i, j);
    DistanceStep(x, y, 0, 0);
  }

  /** The edit that the walk back takes at `(i, j)`. */
  ghost predicate Tried<T>(a: seq<T>, b: seq<T>, i: nat, j: nat, kind: Edit)
    requires i <= |a| && j <= |b|
  {
    if i > 0 && j > 0 && a[i - 1] == b[j - 1] then kind == Keep
    else if i > 0 && j > 0 && Distance(a, b, i, j) == Distance(a, b, i - 1, j - 1) + 1 then kind == Substitute
    else if i > 0 && Distance(a, b, i, j) == Distance(a, b, i - 1, j) + 1 then kind == Delete
    else kind == Insert
  }

  /** The last edit of a cheapest script is not tried before the one that the walk back takes. */
  lemma LastEdit<T>(a: seq<T>, b: seq<T>, i: nat, j: nat, kind: Edit, g: seq<Edit>, f: Edit)
    requires i <= |a| && j <= |b| && Tried(a, b, i, j, kind)
    requires Transforms(g + [f], a[..i], b[..j]) && Cost(g + [f]) == Distance(a, b, i, j)
    ensures Rank(kind) <= Rank(f)
  {
    hide Transforms, Distance, Count, Cost, Rank, Tried, Uses;
    LastSplit(a, b, i, j, g, f);
    CostConcat(g, [f]);
    CostOne(f);
    var (p, q) := Uses(g);
    ScriptOfPrefixes(g, a, b, p, q);
    TriedFirst(a, b, i, j, kind, f, p, q);
  }

  /** What comes before the last edit has used everything but what that edit needs. */
  lemma LastSplit<T>(a: seq<T>, b: seq<T>, i: nat, j: nat, g: seq<Edit>, f: Edit)
    requires i <= |a| && j <= |b| && Transforms(g + [f], a[..i], b[..j])
    ensures var (p, q) := Uses(g);
            && p == (if f == Insert then i else i - 1) && q == (if f == Delete then j else j - 1)
            && (f == Keep ==> a[p] == b[q])
            && Transforms(g, a[..p], b[..q])
  {
    hide Transforms, Uses;
    var (x, y) := (a[..i], b[..j]);
    SplitScript(g, [f], x, y);
    var (p, q) := Uses(g);
    LastUses(f, x[p..], y[q..]);
    assert x[..p] == a[..p] && y[..q] == b[..q];
    if f == Keep {
      assert x[p..][0] == a[p] && y[q..][0] == b[q];
    }
  }

  /** Whatever edit leads to `(i, j)` at the distance's cost, the walk back has tried those before it. */
  lemma TriedFirst<T>(a: seq<T>, b: seq<T>, i: nat, j: nat, kind: Edit, f: Edit, p: nat, q: nat)
    requires i <= |a| && j <= |b| && Tried(a, b, i, j, kind)
    requires p == (if f == Insert then i else i - 1) && q == (if f == Delete then j else j - 1)
    requires f == Keep ==> a[p] == b[q]
    requires Distance(a, b, p, q) + (if f == Keep then 0 else 1) <= Distance(a, b, i, j)
    ensures Rank(kind) <= Rank(f)
  {
    hide Distance;
    DistanceAtMost(a, b, i, j);
  }

  lemma DistanceAtMost<T>(a: seq<T>, b: seq<T>, i: nat, j: nat)
    requires i <= |a| && j <= |b|
    ensures i > 0 ==> Distance(a, b, i, j) <= Distance(a, b, i - 1, j) + 1
    ensures i > 0 && j > 0 ==> Distance(a, b, i, j) <= Distance(a, b, i - 1, j - 1) + 1
  {
    hide Distance;
    DistanceStep(a, b, i, j);
    if i > 0 {
      DistanceStep(a, b, i - 1, j);
    }
  }

  lemma LastUses<T>(f: Edit, a: seq<T>, b: seq<T>)
    requires Transforms([f], a, b)
    ensures |a| == (if f == Insert then 0 else 1) && |b| == (if f == Delete then 0 else 1)
    ensures f == Keep ==> a == b
  {
    UsesAll([f], a, b);
    assert [f][1..] == [];
  }

  /** So far no cheapest script is ahead: each ends like the one being built, or falls behind it. */
  ghost predicate FirstSoFar<T>(script: seq<Edit>, a: seq<T>, b: seq<T>) {
    forall other ::
      Transforms(other, a, b) && Cost(other) == Distance(a, b, |a|, |b|) ==>
        EndsWith(other, script) || Ahead(script, other)
  }

  ghost predicate EndsWith(script: seq<Edit>, end: seq<Edit>) {
    |end| <= |script| && script[|script| - |end|..] == end
  }

  lemma AheadStays(e: Edit, script: seq<Edit>, other: seq<Edit>)
    requires Ahead(script, other)
    ensures Ahead([e] + script, other)
  {
    var n: nat :| AheadAt(script, other, n);
    var more := [e] + script;
    assert more[|more| - n..] == script[|script| - n..];
    assert AheadAt(more, other, n);
  }

  lemma FirstStep<T>(a: seq<T>, b: seq<T>, i: nat, j: nat, script: seq<Edit>, kind: Edit, other: seq<Edit>)
    requires Walked(a, b, i, j, script) && Tried(a, b, i, j, kind) && i + j > 0
    requires Transforms(other, a, b) && Cost(other) == Distance(a, b, |a|, |b|) && EndsWith(other, script)
    ensures EndsWith(other, [kind] + script) || Ahead([kind] + script, other)
  {
    hide Distance, Count, Tried;
    var n := |other| - |script|;
    var front := other[..n];
    assert other == front + script;
    FrontTransforms(front, script, a, b, i, j);
    CostConcat(front, script);
    assert n > 0;
    var (g, f) := (front[..n - 1], front[n - 1]);
    assert front == g + [f];
    LastEdit(a, b, i, j, kind, g, f);
    var more := [kind] + script;
    assert more[|more| - |script|..] == script && other[|other| - 1 - |script|] == f;
    if Rank(kind) < Rank(f) {
      assert AheadAt(more, other, |script|);
    } else {
      assert other[n - 1..] == more;
    }
  }

  lemma FirstGrows<T>(a: seq<T>, b: seq<T>, i: nat, j: nat, script: seq<Edit>, kind: Edit)
    requires Walked(a, b, i, j, script) && Tried(a, b, i, j, kind) && i + j > 0 && FirstSoFar(script, a, b)
    ensures FirstSoFar([kind] + script, a, b)
  {
    hide Walked, Tried, Transforms, Cost, EndsWith, Ahead;
    forall other | Transforms(other, a, b) && Cost(other) == Distance(a, b, |a|, |b|)
      ensures EndsWith(other, [kind] + script) || Ahead([kind] + script, other)
    {
      if Ahead(script, other) {
        AheadStays(kind, script, other);
      } else {
        FirstStep(a, b, i, j, script, kind, other);
      }
    }
  }

  lemma FirstAtEnd<T>(script: seq<Edit>, a: seq<T>, b: seq<T>)
    requires Transforms(script, a, b) && Cost(script) == Distance(a, b, |a|, |b|) && FirstSoFar(script, a, b)
    ensures FirstCheapest(script, a, b)
  {
    DistanceIsCheapest(script, a, b);
    hide Transforms, Distance, Count, Ahead;
    forall other | Cheapest(other, a, b)
      ensures other == script || Ahead(script, other)
    {
      assert Cost(other) <= Cost(script);
      if EndsWith(other, script) {
        NothingBefore(other, script, a, b);
      }
    }
  }

  lemma NothingBefore<T>(other: seq<Edit>, script: seq<Edit>, a: seq<T>, b: seq<T>)
    requires Transforms(other, a, b) && Transforms(script, a, b) && EndsWith(other, script)
    ensures other == script
  {
    var front := other[..|other| - |script|];
    assert other == front + script && a[0..] == a && b[0..] == b;
    FrontTransforms(front, script, a, b, 0, 0);
    assert front != [] ==> Uses(front).0 + Uses(front).1 > 0;
  }

  ghost predicate TableUpTo<T>(dp: array2<nat>, a: seq<T>, b: seq<T>, rows: nat)
    reads dp
  {
    && dp.Length0 == |a| + 1 && dp.Length1 == |b| + 1 && rows <= |a| + 1
    && forall i, j :: 0 <= i < rows && 0 <= j <= |b| ==> dp[i, j] == Distance(a, b, i, j)
  }

  method FillTable<T(==)>(a: seq<T>, b: seq<T>) returns (dp: array2<nat>)
    ensures fresh(dp) && TableUpTo(dp, a, b, |a| + 1)
  {
    var n, m := |a|, |b|;
    dp := new nat[n + 1, m + 1]((i, j) => 0);
    for i := 1 to n + 1
      invariant forall k :: 0 <= k < i ==> dp[k, 0] == k
    {
      dp[i, 0] := i;
    }
    for j := 1 to m + 1
      invariant forall k :: 0 <= k <= n ==> dp[k, 0] == k
      invariant forall k :: 0 <= k < j ==> dp[0, k] == k
    {
      dp[0, j] := j;
    }
    for i := 1 to n + 1
      invariant forall k :: 0 <= k <= n ==> dp[k, 0] == k
      invariant TableUpTo(dp, a, b, i)
    {
      FillRow(dp, a, b, i);
    }
  }

  method FillRow<T(==)>(dp: array2<nat>, a: seq<T>, b: seq<T>, i: nat)
    requires 0 < i <= |a| && TableUpTo(dp, a, b, i) && forall k :: 0 <= k <= |a| ==> dp[k, 0] == k
    modifies dp
    ensures TableUpTo(dp, a, b, i + 1) && forall k :: 0 <= k <= |a| ==> dp[k, 0] == k
  {
    hide Distance;
    DistanceStep(a, b, i, 0);
    for j := 1 to |b| + 1
      invariant forall k :: 0 <= k <= |a| ==> dp[k, 0] == k
      invariant forall k, l :: 0 <= k < i && 0 <= l <= |b| ==> dp[k, l] == Distance(a, b, k, l)
      invariant forall l :: 0 <= l < j ==> dp[i, l] == Distance(a, b, i, l)
    {
      DistanceStep(a, b, i, j);
      var cost := if a[i - 1] != b[j - 1] then 1 else 0;
      dp[i, j] := Min(Min(dp[i - 1, j] + 1, dp[i, j - 1] + 1), dp[i - 1, j - 1] + cost);
    }
  }

  /** The numbers of substitutions, deletions and insertions of the first of the cheapest edit scripts. */
  method LevenshteinOps<T(==)>(reference: seq<T>, hypothesis: seq<T>)
    returns (substitutions: nat, deletions: nat, insertions: nat, ghost script: seq<Edit>)
    ensures FirstCheapest(script, reference, hypothesis)
    ensures substitutions == Count(script, Substitute) && deletions == Count(script, Delete)
    ensures insertions == Count(script, Insert)
    ensures |reference| + insertions == |hypothesis| + deletions
    ensures substitutions + deletions + insertions == Distance(reference, hypothesis, |reference|, |hypothesis|)
  {
    var n, m := |reference|, |hypothesis|;
    if n == 0 {
      script := seq(m, _ => Insert);
      OnlyOne(Insert, reference, hypothesis, m);
      OnlyScript(Insert, reference, hypothesis);
      return 0, 0, m, script;
    }
    if m == 0 {
      script := seq(n, _ => Delete);
      OnlyOne(Delete, reference, hypothesis, n);
      OnlyScript(Delete, reference, hypothesis);
      return 0, n, 0, script;
    }
    var dp := FillTable(reference, hypothesis);
    substitutions, deletions, insertions, script := TraceBack(dp, reference, hypothesis);
    FirstTransforms(script, reference, hypothesis);
    ScriptLengths(script, reference, hypothesis);
  }

  lemma FirstTransforms<T>(script: seq<Edit>, a: seq<T>, b: seq<T>)
    requires FirstCheapest(script, a, b)
    ensures Transforms(script, a, b)
  {
  }

  /** With nothing to compare there is only one script. */
  lemma OnlyScript<T>(kind: Edit, a: seq<T>, b: seq<T>)
    requires (kind == Insert && a == []) || (kind == Delete && b == [])
    ensures FirstCheapest(seq(|a| + |b|, _ => kind), a, b)
  {
    hide Transforms, Count;
    OnlyOne(kind, a, b, |a| + |b|);
    DistanceStep(a, b, |a|, |b|);
    DistanceIsCheapest(seq(|a| + |b|, _ => kind), a, b);
    forall other | Cheapest(other, a, b)
      ensures other == seq(|a| + |b|, _ => kind)
    {
      NothingElse(other, kind, a, b);
    }
  }

  lemma {:induction false} NothingElse<T>(script: seq<Edit>, kind: Edit, a: seq<T>, b: seq<T>)
    requires (kind == Insert && a == []) || (kind == Delete && b == [])
    requires Transforms(script, a, b)
    ensures script == seq(|a| + |b|, _ => kind)
    decreases |script|
  {
    if script != [] {
      NothingElse(script[1..], kind, if kind == Delete then a[1..] else a, if kind == Insert then b[1..] else b);
      assert script == [script[0]] + script[1..];
    }
  }

  /** What the walk back has accounted for when it stands at `(i, j)`. */
  ghost predicate Walked<T>(a: seq<T>, b: seq<T>, i: nat, j: nat, script: seq<Edit>) {
    && i <= |a| && j <= |b|
    && Transforms(script, a[i..], b[j..])
    && Distance(a, b, i, j) + Cost(script) == Distance(a, b, |a|, |b|)
  }

  lemma WalkBack<T>(a: seq<T>, b: seq<T>, i: nat, j: nat, script: seq<Edit>, kind: Edit, i': nat, j': nat)
    requires Walked(a, b, i, j, script)
    requires if kind == Insert then i' == i else i' == i - 1
    requires if kind == Delete then j' == j else j' == j - 1
    requires if kind == Keep then a[i'] == b[j'] else Distance(a, b, i, j) == Distance(a, b, i', j') + 1
    ensures Walked(a, b, i', j', [kind] + script)
  {
    hide Distance, Transforms, Count;
    if kind == Keep {
      MatchIsDiagonal(a, b, i, j);
    }
    TransformsPush(script, kind, a[i'..], b[j'..], a[i..], b[j..]);
    CountPush(script, kind);
  }

  lemma TransformsPush<T>(script: seq<Edit>, kind: Edit, a: seq<T>, b: seq<T>, a': seq<T>, b': seq<T>)
    requires Transforms(script, a', b')
    requires if kind == Insert then a' == a else a != [] && a[1..] == a'
    requires if kind == Delete then b' == b else b != [] && b[1..] == b'
    requires kind == Keep ==> a[0] == b[0]
    ensures Transforms([kind] + script, a, b)
  {
    assert ([kind] + script)[1..] == script;
  }

  lemma CountPush(script: seq<Edit>, kind: Edit)
    ensures forall other: Edit :: Count([kind] + script, other) == Count(script, other) + if other == kind then 1 else 0
  {
    assert ([kind] + script)[1..] == script;
  }

  /** Walk from the far corner of the table to the origin. */
  method TraceBack<T(==)>(dp: array2<nat>, a: seq<T>, b: seq<T>)
    returns (substitutions: nat, deletions: nat, insertions: nat, ghost script: seq<Edit>)
    requires TableUpTo(dp, a, b, |a| + 1)
    ensures FirstCheapest(script, a, b) && Cost(script) == Distance(a, b, |a|, |b|)
    ensures substitutions == Count(script, Substitute) && deletions == Count(script, Delete)
    ensures insertions == Count(script, Insert)
  {
    hide Distance, Walked, Count, Transforms, FirstSoFar, FirstCheapest;
    var i: nat, j: nat := |a|, |b|;
    substitutions, deletions, insertions, script := 0, 0, 0, [];
    WalkStarts(a, b);
    while i > 0 || j > 0
      invariant i <= |a| && j <= |b| && Walked(a, b, i, j, script) && FirstSoFar(script, a, b)
      invariant substitutions == Count(script, Substitute) && deletions == Count(script, Delete)
      invariant insertions == Count(script, Insert)
      decreases i + j
    {
      WhereFrom(a, b, i, j);
      if i > 0 && j > 0 && a[i - 1] == b[j - 1] {
        FirstGrows(a, b, i, j, script, Keep);
        WalkBack(a, b, i, j, script, Keep, i - 1, j - 1);
        CountPush(script, Keep);
        script := [Keep] + script;
        i, j := i - 1, j - 1;
      } else if i > 0 && j > 0 && dp[i, j] == dp[i - 1, j - 1] + 1 {
        FirstGrows(a, b, i, j, script, Substitute);
        WalkBack(a, b, i, j, script, Substitute, i - 1, j - 1);
        CountPush(script, Substitute);
        script := [Substitute] + script;
        substitutions := substitutions + 1;
        i, j := i - 1, j - 1;
      } else if i > 0 && dp[i, j] == dp[i - 1, j] + 1 {
        FirstGrows(a, b, i, j, script, Delete);
        WalkBack(a, b, i, j, script, Delete, i - 1, j);
        CountPush(script, Delete);
        script := [Delete] + script;
        deletions := deletions + 1;
        i := i - 1;
      } else {
        FirstGrows(a, b, i, j, script, Insert);
        WalkBack(a, b, i, j, script, Insert, i, j - 1);
        CountPush(script, Insert);
        script := [Insert] + script;
        insertions := insertions + 1;
        j := j - 1;
      }
    }
    WalkEnds(a, b, script);
    FirstAtEnd(script, a, b);
  }

  lemma WalkStarts<T>(a: seq<T>, b: seq<T>)
    ensures Walked(a, b, |a|, |b|, []) && FirstSoFar([], a, b) && forall kind: Edit :: Count([], kind) == 0
  {
  }

  lemma WalkEnds<T>(a: seq<T>, b: seq<T>, script: seq<Edit>)
    requires Walked(a, b, 0, 0, script)
    ensures Transforms(script, a, b) && Cost(script) == Distance(a, b, |a|, |b|)
  {
    assert a[0..] == a && b[0..] == b;
  }

  /** Where the distance at a position comes from. */
  lemma WhereFrom<T>(a: seq<T>, b: seq<T>, i: nat, j: nat)
    requires i <= |a| && j <= |b| && (i > 0 || j > 0)
    ensures j == 0 ==> Distance(a, b, i, j) == Distance(a, b, i - 1, j) + 1
    ensures i == 0 ==> Distance(a, b, i, j) == Distance(a, b, i, j - 1) + 1
    ensures i > 0 && j > 0 && a[i - 1] != b[j - 1] ==>
              || Distance(a, b, i, j) == Distance(a, b, i - 1, j - 1) + 1
              || Distance(a, b, i, j) == Distance(a, b, i - 1, j) + 1
              || Distance(a, b, i, j) == Distance(a, b, i, j - 1) + 1
  {
  }

  // ----- the rate

  datatype CerStats = CerStats(substitutions: nat, deletions: nat, insertions: nat, referenceChars: nat) {
    function Edits(): nat {
      substitutions + deletions + insertions
    }

    function Cer(): real {
      if referenceChars == 0 then (if Edits() == 0 then 0.0 else 1.0)
      else Edits() as real / referenceChars as real
    }
  }

  /** The counts of the first of the cheapest edit scripts, and how long the reference is. */
  method ComputeCer(reference: string, hypothesis: string) returns (stats: CerStats, ghost script: seq<Edit>)
    ensures stats.referenceChars == |reference|
    ensures FirstCheapest(script, reference, hypothesis)
    ensures stats.substitutions == Count(script, Substitute)
    ensures stats.deletions == Count(script, Delete) && stats.insertions == Count(script, Insert)
    ensures stats.Edits() == Distance(reference, hypothesis, |reference|, |hypothesis|)
    ensures |reference| + stats.insertions == |hypothesis| + stats.deletions
  {
    var substitutions, deletions, insertions;
    substitutions, deletions, insertions, script := LevenshteinOps(reference, hypothesis);
    stats := CerStats(substitutions, deletions, insertions, |reference|);
  }

  lemma {:induction false} ZeroDistance<T>(a: seq<T>, b: seq<T>, i: nat, j: nat)
    requires i <= |a| && j <= |b|
    ensures Distance(a, b, i, j) == 0 <==> a[..i] == b[..j]
    decreases i
  {
    if i > 0 && j > 0 {
      ZeroDistance(a, b, i - 1, j - 1);
      assert a[..i] == a[..i - 1] + [a[i - 1]] && b[..j] == b[..j - 1] + [b[j - 1]];
    }
  }

  /** The rate is the number of edits for each character of the reference; without a reference any edit is a full
      error. */
  lemma CerScales(stats: CerStats)
    ensures stats.referenceChars > 0 ==> stats.Cer() * stats.referenceChars as real == stats.Edits() as real
    ensures stats.referenceChars == 0 ==> stats.Cer() == (if stats.Edits() > 0 then 1.0 else 0.0)
  {
  }

  /** The error rate is zero exactly for a perfect transcription. */
  lemma CerZeroIff(stats: CerStats, reference: string, hypothesis: string)
    requires stats.referenceChars == |reference|
    requires stats.Edits() == Distance(reference, hypothesis, |reference|, |hypothesis|)
    ensures stats.Cer() == 0.0 <==> reference == hypothesis
  {
    ZeroDistance(reference, hypothesis, |reference|, |hypothesis|);
    assert reference[..|reference|] == reference && hypothesis[..|hypothesis|] == hypothesis;
  }
}
