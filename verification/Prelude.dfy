/** Vocabulary shared by every component: results, and facts about sequences of rows. */
module Prelude {
  datatype Option<+T> = None | Some(value: T)

  /** The source's `Result`: the error text is only a message, never inspected. */
  datatype Outcome<+T> = Ok(value: T) | Err(error: string)

  ghost predicate NoDup<T(!new)>(s: seq<T>) {
    forall i, j :: 0 <= i < j < |s| ==> s[i] != s[j]
  }

  function Min(a: int, b: int): int { if a <= b then a else b }

  function Max(a: int, b: int): int { if a >= b then a else b }

  /** `usize::div_ceil`. */
  function DivCeil(n: nat, b: nat): (r: nat)
    requires b > 0
    ensures (r - 1) * b < n <= r * b
  {
    var r := (n + b - 1) / b;
    assert r * b <= n + b - 1 < r * b + b;
    r
  }

  lemma MulMonotone(x: int, y: int, b: nat)
    requires x <= y
    ensures x * b <= y * b
  {
  }

  /** `DivCeil(n, b)` is the least number of blocks of `b` that hold `n`. */
  lemma DivCeilLeast(n: nat, b: nat, k: nat)
    requires b > 0
    ensures DivCeil(n, b) <= k <==> n <= k * b
  {
    if k < DivCeil(n, b) {
      MulMonotone(k, DivCeil(n, b) - 1, b);
    } else {
      MulMonotone(DivCeil(n, b), k, b);
    }
  }

  lemma DivCeilMonotone(m: nat, n: nat, b: nat)
    requires b > 0 && m <= n
    ensures DivCeil(m, b) <= DivCeil(n, b)
  {
    DivCeilLeast(m, b, DivCeil(n, b));
  }

  function Sum(lens: seq<nat>): nat {
    if lens == [] then 0 else Sum(lens[..|lens| - 1]) + lens[|lens| - 1]
  }

  lemma SumPrefix(lens: seq<nat>, k: nat)
    requires k < |lens|
    ensures Sum(lens[..k + 1]) == Sum(lens[..k]) + lens[k]
  {
    assert lens[..k + 1][..k] == lens[..k];
  }

  lemma SumPrefixBound(lens: seq<nat>, k: nat)
    requires k <= |lens|
    ensures Sum(lens[..k]) <= Sum(lens)
    decreases |lens| - k
  {
    if k == |lens| {
      assert lens[..k] == lens;
    } else {
      SumPrefix(lens, k);
      SumPrefixBound(lens, k + 1);
    }
  }

  function Lengths<T>(rows: seq<seq<T>>): (lens: seq<nat>)
    ensures |lens| == |rows|
  {
    seq(|rows|, i requires 0 <= i < |rows| => |rows[i]|)
  }

  /** The row-major concatenation a tensor of rows is built from. */
  function Flatten<T>(rows: seq<seq<T>>): seq<T> {
    if rows == [] then [] else Flatten(rows[..|rows| - 1]) + rows[|rows| - 1]
  }

  lemma FlattenPrefix<T>(rows: seq<seq<T>>, k: nat)
    requires k < |rows|
    ensures Flatten(rows[..k + 1]) == Flatten(rows[..k]) + rows[k]
  {
    assert rows[..k + 1][..k] == rows[..k];
  }

  lemma {:induction false} FlattenLength<T>(rows: seq<seq<T>>)
    ensures |Flatten(rows)| == Sum(Lengths(rows))
  {
    if rows != [] {
      var k := |rows| - 1;
      FlattenLength(rows[..k]);
      assert Lengths(rows)[..k] == Lengths(rows[..k]);
    }
  }

  /** Row `r` occupies the stretch of the concatenation that starts after all earlier rows. */
  lemma {:induction false} FlattenRow<T>(rows: seq<seq<T>>, r: nat)
    requires r < |rows|
    ensures Sum(Lengths(rows)[..r]) + |rows[r]| <= |Flatten(rows)|
    ensures Flatten(rows)[Sum(Lengths(rows)[..r])..Sum(Lengths(rows)[..r]) + |rows[r]|] == rows[r]
  {
    var k := |rows| - 1;
    FlattenLength(rows[..k]);
    assert Lengths(rows[..k]) == Lengths(rows)[..k];
    if r < k {
      FlattenRow(rows[..k], r);
      assert Lengths(rows[..k])[..r] == Lengths(rows)[..r];
    }
  }

  /** Undo `Flatten`: cut a flat sequence into rows of the given lengths. */
  function Split<T>(flat: seq<T>, lens: seq<nat>): (rows: seq<seq<T>>)
    requires Sum(lens) == |flat|
    ensures Lengths(rows) == lens
    decreases |lens|
  {
    if lens == [] then [] else
      var k := |lens| - 1;
      var cut := |flat| - lens[k];
      var rows := Split(flat[..cut], lens[..k]) + [flat[cut..]];
      assert Lengths(rows) == Lengths(rows[..k]) + [lens[k]];
      rows
  }

  lemma {:induction false} SplitFlatten<T>(rows: seq<seq<T>>)
    ensures |Flatten(rows)| == Sum(Lengths(rows))
    ensures Split(Flatten(rows), Lengths(rows)) == rows
  {
    FlattenLength(rows);
    if rows != [] {
      var k := |rows| - 1;
      SplitFlatten(rows[..k]);
      assert Lengths(rows[..k]) == Lengths(rows)[..k];
      var flat := Flatten(rows);
      assert flat[..|flat| - |rows[k]|] == Flatten(rows[..k]);
    }
  }

  ghost function Elements<T(!new)>(s: seq<T>): set<T> {
    set x | x in s
  }

  lemma {:induction false} NoDupSetSize<T(!new)>(s: seq<T>)
    requires NoDup(s)
    ensures |Elements(s)| == |s|
  {
    if s != [] {
      var k := |s| - 1;
      NoDupSetSize(s[..k]);
      assert Elements(s) == Elements(s[..k]) + {s[k]};
    }
  }
}
