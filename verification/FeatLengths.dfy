/** How many audio rows the encoder makes of a number of feature frames. */
module FeatLengths {
  import opened Prelude

  /** The source's `/` and `%` on signed integers round toward zero. */
  function TruncDiv(a: int, b: int): int
    requires b != 0
  {
    var q := (if a < 0 then -a else a) / (if b < 0 then -b else b);
    if (a < 0) == (b < 0) then q else -q
  }

  function TruncRem(a: int, b: int): int
    requires b != 0
  {
    a - TruncDiv(a, b) * b
  }

  /** Division rounding down, from division rounding toward zero. */
  function DivFloor(a: int, b: int): (r: int)
    requires b != 0
  {
    var (q, m) := (TruncDiv(a, b), TruncRem(a, b));
    if m != 0 && ((m > 0) != (b > 0)) then q - 1 else q
  }

  function FeatExtractOutputLength(inputLen: nat): nat {
    var leave := TruncRem(inputLen, 100);
    var featLen := DivFloor(leave - 1, 2) + 1;
    var base := DivFloor(DivFloor(featLen - 1, 2), 2) + 1;
    Max(base + DivFloor(inputLen, 100) * 13, 0)
  }

  lemma FloorOfTwo(a: int)
    ensures DivFloor(a, 2) == a / 2
  {
  }

  /** Thirteen rows for each full hundred frames, and one for each eight frames begun after that. */
  lemma RowsOf(n: nat)
    ensures FeatExtractOutputLength(n) == 13 * (n / 100) + DivCeil(n % 100, 8)
  {
    assert TruncRem(n, 100) == n % 100 && DivFloor(n, 100) == n / 100;
    FloorOfTwo(n % 100 - 1);
    var featLen := (n % 100 - 1) / 2 + 1;
    FloorOfTwo(featLen - 1);
    FloorOfTwo((featLen - 1) / 2);
  }

  /** Lengths add up at every multiple of a hundred. */
  lemma RowsAdd(a: nat, b: nat)
    requires a % 100 == 0
    ensures FeatExtractOutputLength(a + b) == FeatExtractOutputLength(a) + FeatExtractOutputLength(b)
  {
    hide FeatExtractOutputLength;
    RowsOf(a + b);
    RowsOf(a);
    RowsOf(b);
    assert (a + b) / 100 == a / 100 + b / 100 && (a + b) % 100 == b % 100;
  }

  lemma EighthsOf(m: nat, r: nat)
    requires 1 <= r <= 8
    ensures DivCeil(8 * m + r, 8) == m + 1
  {
  }

  /** A length to follow `a` for which the rows of the two do not add up. */
  function Misfit(a: nat): nat
    requires a % 100 != 0
  {
    var r := a % 100 % 8;
    if r == 4 then 4 else if 1 <= r <= 3 then 100 - a % 100 else 101 - a % 100
  }

  /** The rows of the remainders, for the residue of the first modulo eight. */
  lemma MisfitRemainders(m: nat, r: nat)
    requires r < 8 && 0 < 8 * m + r < 100
    ensures r == 4 ==> DivCeil(8 * m + 4, 8) + DivCeil(4, 8) == m + 2
    ensures r == 4 && m < 12 ==> DivCeil(8 * m + 8, 8) == m + 1
    ensures 1 <= r <= 3 ==> DivCeil(8 * m + r, 8) + DivCeil(100 - (8 * m + r), 8) == 14
    ensures r == 0 || r > 4 ==> DivCeil(8 * m + r, 8) + DivCeil(101 - (8 * m + r), 8) == 13
  {
    hide DivCeil;
    EighthsOf(0, 4);
    EighthsOf(m, 8);
    if r == 0 {
      EighthsOf(m - 1, 8);
      EighthsOf(12 - m, 5);
    } else {
      EighthsOf(m, r);
      if r <= 3 {
        EighthsOf(12 - m, 4 - r);
      } else if r > 4 {
        EighthsOf(11 - m, 13 - r);
      }
    }
  }

  /** ... and at no other length: a hundred is what the positions to cut at must be multiples of. */
  lemma RowsAddOnlyThere(a: nat)
    requires a % 100 != 0
    ensures FeatExtractOutputLength(a + Misfit(a)) != FeatExtractOutputLength(a) + FeatExtractOutputLength(Misfit(a))
  {
    hide FeatExtractOutputLength, DivCeil;
    var (q, l, b) := (a / 100, a % 100, Misfit(a));
    var (m, r) := (l / 8, l % 8);
    assert a == 100 * q + l && l == 8 * m + r;
    RowsAt(q, l);
    RowsAt(0, b);
    MisfitRemainders(m, r);
    if r == 4 {
      RowsAt(q, l + 4);
    } else if 1 <= r <= 3 {
      RowsAt(q + 1, 0);
      EighthsNone();
    } else {
      RowsAt(q + 1, 1);
      EighthsOf(0, 1);
    }
  }

  lemma RowsAt(q: nat, l: nat)
    requires l < 100
    ensures FeatExtractOutputLength(100 * q + l) == 13 * q + DivCeil(l, 8)
  {
    hide FeatExtractOutputLength, DivCeil;
    RowsOf(100 * q + l);
  }

  lemma EighthsNone()
    ensures DivCeil(0, 8) == 0
  {
  }

  /** Three convolutions of stride two halve a padded window three times. */
  function AfterConvolutions(window: nat): (r: nat) {
    DivCeil(DivCeil(DivCeil(window, 2), 2), 2)
  }

  lemma AfterConvolutionsEighth(window: nat)
    ensures AfterConvolutions(window) == DivCeil(window, 8)
  {
  }
}
