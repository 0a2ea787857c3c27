/** Compressing pathological repetitions in decoded text: long runs of one character, then patterns repeated
    many times in a row. */
module RepetitionRepair {
  import opened Prelude

  const MAX_PATTERN_LEN := 20

  // ----- subsequences

  /** `a` is `b` with some characters left out. */
  ghost predicate Subsequence(a: string, b: string) {
    if a == [] then true
    else if b == [] then false
    else (a[|a| - 1] == b[|b| - 1] && Subsequence(a[..|a| - 1], b[..|b| - 1])) || Subsequence(a, b[..|b| - 1])
  }

  lemma {:induction false} SubsequenceMore(a: string, b: string, more: string)
    requires Subsequence(a, b)
    ensures Subsequence(a, b + more)
  {
    if more == [] {
      assert b + more == b;
    } else {
      SubsequenceMore(a, b, more[..|more| - 1]);
      assert (b + more)[..|b + more| - 1] == b + more[..|more| - 1];
    }
  }

  lemma {:induction false} SubsequenceConcat(a: string, b: string, c: string, d: string)
    requires Subsequence(a, b) && Subsequence(c, d)
    ensures Subsequence(a + c, b + d)
    decreases |d|
  {
    if c == [] {
      assert a + c == a;
      SubsequenceMore(a, b, d);
    } else {
      var rest := d[..|d| - 1];
      assert (b + d)[..|b + d| - 1] == b + rest && (a + c)[..|a + c| - 1] == a + c[..|c| - 1];
      if Subsequence(c, rest) {
        SubsequenceConcat(a, b, c, rest);
      } else {
        SubsequenceConcat(a, b, c[..|c| - 1], rest);
      }
    }
  }

  lemma {:induction false} SubsequenceSelf(a: string)
    ensures Subsequence(a, a)
  {
    if a != [] {
      SubsequenceSelf(a[..|a| - 1]);
    }
  }

  lemma {:induction false} SubsequenceTransitive(a: string, b: string, c: string)
    requires Subsequence(a, b) && Subsequence(b, c)
    ensures Subsequence(a, c)
    decreases |c|
  {
    if a != [] {
      var (x, y, z) := (a[..|a| - 1], b[..|b| - 1], c[..|c| - 1]);
      if Subsequence(b, z) {
        SubsequenceTransitive(a, b, z);
      } else if Subsequence(a, y) {
        SubsequenceTransitive(a, y, z);
      } else {
        SubsequenceTransitive(x, y, z);
      }
    }
  }

  ghost predicate SameElements(a: string, b: string) {
    forall x :: x in a <==> x in b
  }

  // ----- runs of one character

  /** How many equal characters follow the first, itself included. */
  function RunLength(s: string): (n: nat)
    requires s != []
    ensures 1 <= n <= |s| && (forall i :: 0 <= i < n ==> s[i] == s[0]) && (n < |s| ==> s[n] != s[0])
  {
    if |s| == 1 || s[1] != s[0] then 1 else
      var n := RunLength(s[1..]) + 1;
      assert n < |s| ==> s[n] == s[1..][n - 1];
      assert forall i :: 1 <= i < n ==> s[i] == s[1..][i - 1];
      n
  }

  /** Runs longer than the threshold become one character. */
  function CollapseRuns(s: string, thresh: nat): string
    decreases |s|
  {
    if s == [] then [] else
      var n := RunLength(s);
      (if n > thresh then [s[0]] else s[..n]) + CollapseRuns(s[n..], thresh)
  }

  lemma RunFound(s: string, n: nat)
    requires 1 <= n <= |s| && (forall i :: 0 <= i < n ==> s[i] == s[0]) && (n < |s| ==> s[n] != s[0])
    ensures RunLength(s) == n
  {
  }

  /** The length of the run that starts at `i`. */
  method CountRun(chars: string, i: nat) returns (count: nat)
    requires i < |chars|
    ensures i + count <= |chars| && count == RunLength(chars[i..])
  {
    count := 1;
    while i + count < |chars| && chars[i + count] == chars[i]
      invariant 1 <= count && i + count <= |chars| && forall j :: i <= j < i + count ==> chars[j] == chars[i]
    {
      count := count + 1;
    }
    RunFound(chars[i..], count);
  }

  method PushRun(before: string, chars: string, i: nat, count: nat) returns (out: string)
    requires i + count <= |chars|
    ensures out == before + chars[i..i + count]
  {
    out := before;
    for j := 0 to count
      invariant out == before + chars[i..i + j]
    {
      out := out + [chars[i + j]];
    }
  }

  method FixCharRepeats(chars: string, thresh: nat) returns (out: string)
    ensures out == CollapseRuns(chars, thresh)
  {
    hide RunLength, CollapseRuns;
    var n := |chars|;
    var i := 0;
    out := [];
    assert chars[0..] == chars;
    while i < n
      invariant i <= n && out + CollapseRuns(chars[i..], thresh) == CollapseRuns(chars, thresh)
    {
      var count := CountRun(chars, i);
      RunTaken(chars, thresh, i, count, out);
      if count > thresh {
        out := out + [chars[i]];
      } else {
        out := PushRun(out, chars, i, count);
      }
      i := i + count;
    }
    NothingLeft(chars[n..], thresh);
  }

  lemma RunTaken(chars: string, thresh: nat, i: nat, count: nat, out: string)
    requires i < |chars| && i + count <= |chars| && count == RunLength(chars[i..])
    ensures out + CollapseRuns(chars[i..], thresh) ==
              out + (if count > thresh then [chars[i]] else chars[i..i + count]) +
                CollapseRuns(chars[i + count..], thresh)
  {
    hide RunLength;
    var rest := chars[i..];
    assert rest[..count] == chars[i..i + count] && rest[count..] == chars[i + count..];
  }

  lemma NothingLeft(s: string, thresh: nat)
    requires s == []
    ensures CollapseRuns(s, thresh) == []
  {
  }

  /** The first run of the collapsed text is the collapsed first run. */
  lemma CollapsedRun(s: string, thresh: nat)
    requires s != []
    ensures var out := CollapseRuns(s, thresh);
            var n := if RunLength(s) > thresh then 1 else RunLength(s);
            out != [] && out[0] == s[0] && RunLength(out) == n &&
              out[..n] == (if RunLength(s) > thresh then [s[0]] else s[..RunLength(s)]) &&
                out[n..] == CollapseRuns(s[RunLength(s)..], thresh)
    decreases |s|
  {
    var (n, out) := (RunLength(s), CollapseRuns(s, thresh));
    var head := if n > thresh then [s[0]] else s[..n];
    var rest := CollapseRuns(s[n..], thresh);
    assert out == head + rest;
    if n < |s| {
      CollapsedRun(s[n..], thresh);
      assert rest[0] == s[n] != s[0];
    }
    assert out[|head|..] == rest && out[..|head|] == head;
    RunBefore(head, rest, s[0]);
  }

  lemma RunBefore(head: string, rest: string, c: char)
    requires head != [] && (forall x :: x in head ==> x == c) && (rest != [] ==> rest[0] != c)
    ensures RunLength(head + rest) == |head|
  {
    var s := head + rest;
    forall i | 0 <= i < |head|
      ensures s[i] == c
    {
      assert head[i] in head;
    }
    RunFound(s, |head|);
  }

  /** Collapsing runs twice is collapsing them once. */
  lemma {:induction false} CollapseIdempotent(s: string, thresh: nat)
    ensures CollapseRuns(CollapseRuns(s, thresh), thresh) == CollapseRuns(s, thresh)
    decreases |s|
  {
    if s != [] {
      CollapsedRun(s, thresh);
      CollapseIdempotent(s[RunLength(s)..], thresh);
      var out := CollapseRuns(s, thresh);
      assert out == out[..RunLength(out)] + out[RunLength(out)..];
    }
  }

  /** Only characters of long runs are left out, and none disappears altogether. */
  lemma {:induction false} CollapseKeeps(s: string, thresh: nat)
    ensures Subsequence(CollapseRuns(s, thresh), s) && SameElements(CollapseRuns(s, thresh), s)
    decreases |s|
  {
    if s != [] {
      var n := RunLength(s);
      var head := if n > thresh then [s[0]] else s[..n];
      CollapseKeeps(s[n..], thresh);
      assert s == s[..n] + s[n..];
      RunKeeps(s[..n], head);
      SubsequenceConcat(head, s[..n], CollapseRuns(s[n..], thresh), s[n..]);
    }
  }

  lemma RunKeeps(run: string, head: string)
    requires run != [] && (forall i :: 0 <= i < |run| ==> run[i] == run[0]) && (head == run || head == [run[0]])
    ensures Subsequence(head, run) && SameElements(head, run)
  {
    SubsequenceSelf(run);
    SubsequenceSelf([run[0]]);
    SubsequenceMore([run[0]], [run[0]], run[1..]);
    assert run == [run[0]] + run[1..];
  }

  // ----- repeated patterns

  /** The pattern of length `k` at `i` comes again after `rep` copies of it. */
  ghost predicate CopyAt(s: string, i: nat, k: nat, rep: nat) {
    i + rep * k + k <= |s| && s[i + rep * k..i + rep * k + k] == s[i..i + k]
  }

  ghost predicate Copies(s: string, i: nat, k: nat, m: nat) {
    forall rep: nat :: rep < m ==> CopyAt(s, i, k, rep)
  }

  /** A pattern short enough is repeated often enough at `i`, and not too near the end. */
  ghost predicate RepeatAt(s: string, thresh: nat, maxLen: nat, i: nat, k: nat) {
    i + 2 * thresh <= |s| && 1 <= k <= maxLen && Copies(s, i, k, thresh)
  }

  ghost predicate NoRepeat(s: string, thresh: nat, maxLen: nat) {
    forall i: nat, k: nat :: !RepeatAt(s, thresh, maxLen, i, k)
  }

  /** The leftmost place where a pattern repeats, and the shortest that does there. */
  ghost predicate FirstRepeat(s: string, thresh: nat, maxLen: nat, i: nat, k: nat) {
    && RepeatAt(s, thresh, maxLen, i, k)
    && (forall l: nat :: l < k ==> !RepeatAt(s, thresh, maxLen, i, l))
    && NoneBefore(s, thresh, maxLen, i)
  }

  ghost predicate NoneBefore(s: string, thresh: nat, maxLen: nat, i: nat) {
    forall h: nat, l: nat :: h < i ==> !RepeatAt(s, thresh, maxLen, h, l)
  }

  /** The first repeat with all its copies, which end at `end`. */
  ghost predicate Collapsible(s: string, thresh: nat, maxLen: nat, i: nat, k: nat, m: nat, end: nat) {
    && FirstRepeat(s, thresh, maxLen, i, k)
    && m >= thresh
    && Copies(s, i, k, m) && !CopyAt(s, i, k, m)
    && end == i + m * k
    && i + k <= end <= |s|
  }

  /** `out` is `s` with its first repeat collapsed to one copy of the pattern, and so on after the repeat. */
  ghost predicate CompressedTo(s: string, thresh: nat, maxLen: nat, out: string)
    decreases |s|
  {
    (NoRepeat(s, thresh, maxLen) && out == s) ||
      exists i: nat, k: nat, m: nat, end: nat :: CollapsedAt(s, thresh, maxLen, out, i, k, m, end)
  }

  ghost predicate CollapsedAt(s: string, thresh: nat, maxLen: nat, out: string, i: nat, k: nat, m: nat, end: nat)
    decreases |s|, 0
  {
    && Collapsible(s, thresh, maxLen, i, k, m, end)
    && k > 0
    && s[..i + k] <= out
    && CompressedTo(s[end..], thresh, maxLen, out[i + k..])
  }

  lemma Product(a: nat, b: nat)
    ensures (a + 1) * b == a * b + b && a * b >= 0
  {
  }

  /** Copies that do not fit. */
  lemma TooLong(s: string, thresh: nat, maxLen: nat, i: nat, k: nat, l: nat)
    requires thresh >= 1 && i + k * thresh > |s| && l >= k
    ensures !RepeatAt(s, thresh, maxLen, i, l)
  {
    if Copies(s, i, l, thresh) {
      assert CopyAt(s, i, l, thresh - 1);
      Product(thresh - 1, l);
      MulMonotone(k, l, thresh);
    }
  }

  /** Does the pattern of length `k` at `i` repeat often enough? */
  method IsRepeated(chars: string, thresh: nat, i: nat, k: nat) returns (valid: bool)
    requires thresh >= 1 && i + k * thresh <= |chars|
    ensures valid <==> Copies(chars, i, k, thresh)
  {
    valid := true;
    Product(thresh - 1, k);
    assert CopyAt(chars, i, k, 0);
    for rep := 1 to thresh
      invariant Copies(chars, i, k, rep)
    {
      MulMonotone(rep + 1, thresh, k);
      Product(rep, k);
      var startIdx := i + rep * k;
      if chars[startIdx..startIdx + k] != chars[i..i + k] {
        assert !CopyAt(chars, i, k, rep);
        return false;
      }
    }
  }

  /** The shortest pattern that repeats at `i`; 0 when none does. */
  method PatternAt(chars: string, thresh: nat, maxLen: nat, i: nat) returns (k: nat)
    requires thresh >= 1 && i + 2 * thresh <= |chars|
    ensures k > 0 ==> RepeatAt(chars, thresh, maxLen, i, k)
    ensures forall l: nat :: (k == 0 || l < k) ==> !RepeatAt(chars, thresh, maxLen, i, l)
  {
    hide Copies;
    for len := 1 to maxLen + 1
      invariant forall l: nat :: l < len ==> !RepeatAt(chars, thresh, maxLen, i, l)
    {
      if i + len * thresh > |chars| {
        forall l: nat | l >= len
          ensures !RepeatAt(chars, thresh, maxLen, i, l)
        {
          TooLong(chars, thresh, maxLen, i, len, l);
        }
        return 0;
      }
      var valid := IsRepeated(chars, thresh, i, len);
      if valid {
        return len;
      }
    }
    k := 0;
  }

  /** Where the copies of the pattern end. */
  method EndOfCopies(chars: string, thresh: nat, i: nat, k: nat) returns (end: nat, ghost m: nat)
    requires thresh >= 1 && k >= 1 && Copies(chars, i, k, thresh)
    ensures m >= thresh && Copies(chars, i, k, m) && !CopyAt(chars, i, k, m)
    ensures end == i + m * k && i + k <= end <= |chars|
  {
    hide Copies, CopyAt;
    m := thresh;
    end := i + thresh * k;
    CopiesFit(chars, i, k, thresh);
    while end + k <= |chars| && chars[end..end + k] == chars[i..i + k]
      invariant m >= thresh && Copies(chars, i, k, m) && end == i + m * k && i + k <= end <= |chars|
      decreases |chars| - end
    {
      Product(m, k);
      CopyFound(chars, i, k, m, end);
      end := end + k;
      m := m + 1;
    }
    NoCopy(chars, i, k, m, end);
  }

  lemma CopiesFit(s: string, i: nat, k: nat, m: nat)
    requires m >= 1 && Copies(s, i, k, m)
    ensures i + k <= i + m * k <= |s|
  {
    assert CopyAt(s, i, k, m - 1);
    Product(m - 1, k);
  }

  lemma CopyFound(s: string, i: nat, k: nat, m: nat, end: nat)
    requires Copies(s, i, k, m) && end == i + m * k && i + k <= end && end + k <= |s| && s[end..end + k] == s[i..i + k]
    ensures Copies(s, i, k, m + 1)
  {
    assert CopyAt(s, i, k, m);
  }

  lemma NoCopy(s: string, i: nat, k: nat, m: nat, end: nat)
    requires end == i + m * k && i + k <= end <= |s| && (end + k > |s| || s[end..end + k] != s[i..i + k])
    ensures !CopyAt(s, i, k, m)
  {
  }

  method FixPatternRepeats(chars: string, thresh: nat, maxLen: nat) returns (result: string)
    requires thresh >= 1
    ensures CompressedTo(chars, thresh, maxLen, result)
    decreases |chars|
  {
    hide Copies, CopyAt;
    var n := |chars|;
    var minRepeatChars := thresh * 2;
    if n < minRepeatChars {
      return chars;
    }
    var i := 0;
    result := [];
    while i <= n - minRepeatChars
      invariant i <= n && result == chars[..i] && NoneBefore(chars, thresh, maxLen, i)
    {
      var k := PatternAt(chars, thresh, maxLen, i);
      if k > 0 {
        ghost var m;
        var end;
        end, m := EndOfCopies(chars, thresh, i, k);
        var rest := FixPatternRepeats(chars[end..], thresh, maxLen);
        result := result + chars[i..i + k] + rest;
        assert chars[..i] + chars[i..i + k] == chars[..i + k];
        assert result[i + k..] == rest;
        assert CollapsedAt(chars, thresh, maxLen, result, i, k, m, end);
        return;
      }
      result := result + [chars[i]];
      i := i + 1;
    }
    assert NoRepeat(chars, thresh, maxLen);
    result := result + chars[i..];
  }

  /** Both passes. */
  method DetectAndFixRepetitions(text: string, threshold: nat) returns (fixed: string)
    requires threshold >= 1
    ensures CompressedTo(CollapseRuns(text, threshold), threshold, MAX_PATTERN_LEN, fixed)
    ensures Subsequence(fixed, text) && SameElements(fixed, text)
  {
    hide CompressedTo, CollapseRuns, Subsequence;
    var chars := FixCharRepeats(text, threshold);
    fixed := FixPatternRepeats(chars, threshold, MAX_PATTERN_LEN);
    CollapseKeeps(text, threshold);
    CompressKeeps(chars, threshold, MAX_PATTERN_LEN, fixed);
    SubsequenceTransitive(fixed, chars, text);
  }

  // ----- what the compression does to the text

  lemma FirstRepeatUnique(s: string, thresh: nat, maxLen: nat, i: nat, k: nat, h: nat, l: nat)
    requires FirstRepeat(s, thresh, maxLen, i, k) && FirstRepeat(s, thresh, maxLen, h, l)
    ensures i == h && k == l
  {
  }

  /** A text without repeats has only itself for a result. */
  lemma StaysWhole(s: string, thresh: nat, maxLen: nat, out: string)
    requires CompressedTo(s, thresh, maxLen, out) && NoRepeat(s, thresh, maxLen)
    ensures out == s
  {
    hide Copies;
    if i: nat, k: nat, m: nat, end: nat :| CollapsedAt(s, thresh, maxLen, out, i, k, m, end) {
      assert false;
    }
  }

  /** The text determines its compression. */
  lemma {:induction false} CompressedUnique(s: string, thresh: nat, maxLen: nat, a: string, b: string)
    requires CompressedTo(s, thresh, maxLen, a) && CompressedTo(s, thresh, maxLen, b)
    ensures a == b
    decreases |s|
  {
    hide Copies, CopyAt;
    if !NoRepeat(s, thresh, maxLen) {
      var i: nat, k: nat, m: nat, end: nat :| CollapsedAt(s, thresh, maxLen, a, i, k, m, end);
      var h: nat, l: nat, n: nat, stop: nat :| CollapsedAt(s, thresh, maxLen, b, h, l, n, stop);
      FirstRepeatUnique(s, thresh, maxLen, i, k, h, l);
      SameCopies(s, i, k, m, n);
      CompressedUnique(s[end..], thresh, maxLen, a[i + k..], b[i + k..]);
      assert a == a[..i + k] + a[i + k..] && b == b[..i + k] + b[i + k..];
    } else {
      StaysWhole(s, thresh, maxLen, a);
      StaysWhole(s, thresh, maxLen, b);
    }
  }

  lemma SameCopies(s: string, i: nat, k: nat, m: nat, n: nat)
    requires Copies(s, i, k, m) && !CopyAt(s, i, k, m) && Copies(s, i, k, n) && !CopyAt(s, i, k, n)
    ensures m == n
  {
    assert m < n ==> CopyAt(s, i, k, m);
    assert n < m ==> CopyAt(s, i, k, n);
  }

  /** The copies after the first hold no character the first does not. */
  lemma {:induction false} CopiesAlike(s: string, i: nat, k: nat, m: nat, x: char)
    requires Copies(s, i, k, m) && m >= 1 && i + m * k <= |s|
    ensures x in s[i..i + m * k] ==> i + k <= |s| && x in s[i..i + k]
  {
    assert CopyAt(s, i, k, m - 1);
    Product(m - 1, k);
    var at := i + (m - 1) * k;
    if m > 1 {
      CopiesAlike(s, i, k, m - 1, x);
      assert s[i..i + m * k] == s[i..at] + s[at..at + k];
    }
  }

  /** Compressing leaves characters out, in order, and no character disappears altogether. */
  lemma {:induction false} CompressKeeps(s: string, thresh: nat, maxLen: nat, out: string)
    requires thresh >= 1 && CompressedTo(s, thresh, maxLen, out)
    ensures Subsequence(out, s) && SameElements(out, s)
    decreases |s|
  {
    hide Copies, CopyAt, FirstRepeat, NoRepeat, Subsequence, SameElements;
    if out == s {
      SameSelf(s);
      SubsequenceSelf(s);
    } else {
      var i: nat, k: nat, m: nat, end: nat :| CollapsedAt(s, thresh, maxLen, out, i, k, m, end);
      CompressKeeps(s[end..], thresh, maxLen, out[i + k..]);
      HeadKeeps(s, i, k, m, end);
      assert s == s[..end] + s[end..] && out == s[..i + k] + out[i + k..];
      SubsequenceConcat(s[..i + k], s[..end], out[i + k..], s[end..]);
      SameConcat(s[..i + k], s[..end], out[i + k..], s[end..]);
    }
  }

  lemma SameSelf(s: string)
    ensures SameElements(s, s)
  {
  }

  lemma SameConcat(a: string, b: string, c: string, d: string)
    requires SameElements(a, b) && SameElements(c, d)
    ensures SameElements(a + c, b + d)
  {
  }

  /** Up to the end of the first copy, and of the last. */
  lemma HeadKeeps(s: string, i: nat, k: nat, m: nat, end: nat)
    requires Copies(s, i, k, m) && m >= 1 && end == i + m * k && i + k <= end <= |s|
    ensures Subsequence(s[..i + k], s[..end]) && SameElements(s[..i + k], s[..end])
  {
    hide Copies;
    SubsequenceSelf(s[..i + k]);
    SubsequenceMore(s[..i + k], s[..i + k], s[i + k..end]);
    assert s[..i + k] + s[i + k..end] == s[..end];
    forall x | x in s[..end]
      ensures x in s[..i + k]
    {
      CopiesAlike(s, i, k, m, x);
      assert s[..end] == s[..i] + s[i..end] && s[..i + k] == s[..i] + s[i..i + k];
    }
  }

  /** With a threshold of two or more, exactly the texts without such a repeat stay as they are. */
  lemma {:induction false} CompressIdentityIff(s: string, thresh: nat, maxLen: nat, out: string)
    requires thresh >= 2 && CompressedTo(s, thresh, maxLen, out)
    ensures |out| <= |s|
    ensures out == s <==> NoRepeat(s, thresh, maxLen)
    decreases |s|
  {
    hide Copies, CopyAt;
    if !NoRepeat(s, thresh, maxLen) {
      var i: nat, k: nat, m: nat, end: nat :| CollapsedAt(s, thresh, maxLen, out, i, k, m, end);
      CompressIdentityIff(s[end..], thresh, maxLen, out[i + k..]);
      MulMonotone(2, m, k);
    } else {
      StaysWhole(s, thresh, maxLen, out);
    }
  }

  // ----- is one pass enough?

  /** Behind `head`, which ends in a kept copy of `k` characters, collapsing has made a pattern repeat often
      enough: its copies reach past the kept copy, or they lie within it after its first character. */
  ghost predicate Rejoins(head: string, k: nat, tail: string, thresh: nat, maxLen: nat) {
    exists h: nat, l: nat :: h < |head| && RepeatAt(head + tail, thresh, maxLen, h, l) &&
      Reaches(h, l, thresh, |head|, k)
  }

  predicate Reaches(h: nat, l: nat, thresh: nat, end: nat, k: nat) {
    h + l * thresh > end || h + k > end
  }

  /** No stretch of the text leaves such a repeat behind when it is collapsed in front of what becomes of the rest. */
  ghost predicate NeverRejoins(s: string, thresh: nat, maxLen: nat)
    decreases |s|
  {
    || NoRepeat(s, thresh, maxLen)
    || exists i: nat, k: nat, m: nat, end: nat, tail: string :: CollapsesApart(s, thresh, maxLen, i, k, m, end, tail)
  }

  ghost predicate CollapsesApart(s: string, thresh: nat, maxLen: nat, i: nat, k: nat, m: nat, end: nat, tail: string)
    decreases |s|, 0
  {
    && Collapsible(s, thresh, maxLen, i, k, m, end)
    && k > 0
    && CompressedTo(s[end..], thresh, maxLen, tail)
    && !Rejoins(s[..i + k], k, tail, thresh, maxLen)
    && NeverRejoins(s[end..], thresh, maxLen)
  }

  /** A repeat behind a prefix is a repeat of the rest. */
  lemma RepeatShift(a: string, b: string, thresh: nat, maxLen: nat, h: nat, l: nat)
    ensures RepeatAt(a + b, thresh, maxLen, |a| + h, l) <==> RepeatAt(b, thresh, maxLen, h, l)
  {
    hide CopyAt;
    forall rep: nat | rep < thresh
      ensures CopyAt(a + b, |a| + h, l, rep) <==> CopyAt(b, h, l, rep)
    {
      CopyShift(a, b, h, l, rep);
    }
    if Copies(a + b, |a| + h, l, thresh) {
      assert Copies(b, h, l, thresh);
    } else {
      var rep: nat :| rep < thresh && !CopyAt(a + b, |a| + h, l, rep);
      assert !CopyAt(b, h, l, rep);
    }
  }

  lemma CopyShift(a: string, b: string, h: nat, l: nat, rep: nat)
    ensures CopyAt(a + b, |a| + h, l, rep) <==> CopyAt(b, h, l, rep)
  {
    Product(rep, l);
    if h + rep * l + l <= |b| {
      assert (a + b)[|a| + h + rep * l..|a| + h + rep * l + l] == b[h + rep * l..h + rep * l + l];
      assert (a + b)[|a| + h..|a| + h + l] == b[h..h + l];
    }
  }

  /** Copies within a common prefix of two texts. */
  lemma CopiesWithin(a: string, b: string, n: nat, h: nat, l: nat, m: nat)
    requires n <= |a| && n <= |b| && a[..n] == b[..n] && h + l * m <= n && Copies(a, h, l, m)
    ensures Copies(b, h, l, m)
  {
    forall rep: nat | rep < m
      ensures CopyAt(b, h, l, rep)
    {
      assert CopyAt(a, h, l, rep);
      Product(rep, l);
      MulMonotone(rep + 1, m, l);
      MulMonotone(1, m, l);
      assert a[..n][h..h + l] == a[h..h + l] && b[..n][h..h + l] == b[h..h + l];
      assert a[..n][h + rep * l..h + rep * l + l] == a[h + rep * l..h + rep * l + l];
      assert b[..n][h + rep * l..h + rep * l + l] == b[h + rep * l..h + rep * l + l];
    }
  }

  /** A repeat of the collapsed text that starts before the end of the kept copy reaches past it or starts
      within it: any other would have been the first repeat of the text itself. */
  lemma NewRepeatReaches(s: string, thresh: nat, maxLen: nat, out: string, i: nat, k: nat, m: nat, end: nat, h: nat,
                         l: nat)
    requires thresh >= 2 && Collapsible(s, thresh, maxLen, i, k, m, end) && s[..i + k] <= out && |out| <= |s|
    requires h < i + k && RepeatAt(out, thresh, maxLen, h, l)
    ensures Reaches(h, l, thresh, i + k, k)
  {
    if !Reaches(h, l, thresh, i + k, k) {
      hide Copies, CopyAt;
      CopiesWithin(out, s, i + k, h, l, thresh);
      assert RepeatAt(s, thresh, maxLen, h, l);
      MulMonotone(2, thresh, l);
      assert false;
    }
  }

  /** The result has no such repeat exactly when no stretch of the text rejoins its surroundings. */
  lemma {:induction false} OnePassEnough(s: string, thresh: nat, maxLen: nat, out: string)
    requires thresh >= 2 && CompressedTo(s, thresh, maxLen, out)
    ensures NoRepeat(out, thresh, maxLen) <==> NeverRejoins(s, thresh, maxLen)
    decreases |s|
  {
    hide Copies, CopyAt, Rejoins;
    if !NoRepeat(s, thresh, maxLen) {
      var i: nat, k: nat, m: nat, end: nat :| CollapsedAt(s, thresh, maxLen, out, i, k, m, end);
      OnePassEnough(s[end..], thresh, maxLen, out[i + k..]);
      CompressIdentityIff(s, thresh, maxLen, out);
      SplitRepeats(s, thresh, maxLen, out, i, k, m, end);
      if NoRepeat(out, thresh, maxLen) {
        assert CollapsesApart(s, thresh, maxLen, i, k, m, end, out[i + k..]);
      } else if NeverRejoins(s, thresh, maxLen) {
        var h, l, n, stop, tail := ApartAt(s, thresh, maxLen);
        FirstRepeatUnique(s, thresh, maxLen, i, k, h, l);
        SameCopies(s, i, k, m, n);
        CompressedUnique(s[end..], thresh, maxLen, tail, out[i + k..]);
        assert false;
      }
    } else {
      StaysWhole(s, thresh, maxLen, out);
    }
  }

  lemma ApartAt(s: string, thresh: nat, maxLen: nat) returns (i: nat, k: nat, m: nat, end: nat, tail: string)
    requires NeverRejoins(s, thresh, maxLen) && !NoRepeat(s, thresh, maxLen)
    ensures CollapsesApart(s, thresh, maxLen, i, k, m, end, tail)
  {
    hide NoRepeat, CollapsesApart;
    i, k, m, end, tail :| CollapsesApart(s, thresh, maxLen, i, k, m, end, tail);
  }

  /** A text whose only repeat is its first one is done after one pass exactly when that stretch, collapsed, does
      not rejoin the text around it. */
  lemma OneStretchIff(s: string, thresh: nat, maxLen: nat, out: string, i: nat, k: nat, m: nat, end: nat)
    requires thresh >= 2 && CompressedTo(s, thresh, maxLen, out)
    requires Collapsible(s, thresh, maxLen, i, k, m, end) && NoRepeat(s[end..], thresh, maxLen)
    ensures out == s[..i + k] + s[end..]
    ensures NoRepeat(out, thresh, maxLen) <==> !Rejoins(s[..i + k], k, s[end..], thresh, maxLen)
  {
    hide Copies, CopyAt, Rejoins, NoRepeat;
    var once := s[..i + k] + s[end..];
    assert once[i + k..] == s[end..];
    assert CollapsedAt(s, thresh, maxLen, once, i, k, m, end);
    CompressedUnique(s, thresh, maxLen, out, once);
    CompressIdentityIff(s, thresh, maxLen, out);
    SplitRepeats(s, thresh, maxLen, once, i, k, m, end);
  }

  /** The repeats of a collapsed text are those at the kept copy and those of the rest. */
  lemma SplitRepeats(s: string, thresh: nat, maxLen: nat, out: string, i: nat, k: nat, m: nat, end: nat)
    requires thresh >= 2 && CollapsedAt(s, thresh, maxLen, out, i, k, m, end) && |out| <= |s|
    ensures NoRepeat(out, thresh, maxLen) <==>
              !Rejoins(s[..i + k], k, out[i + k..], thresh, maxLen) && NoRepeat(out[i + k..], thresh, maxLen)
  {
    hide RepeatAt, FirstRepeat, CompressedTo;
    var head, tail := s[..i + k], out[i + k..];
    assert out == head + tail;
    if h: nat, l: nat :| RepeatAt(out, thresh, maxLen, h, l) {
      if h < i + k {
        NewRepeatReaches(s, thresh, maxLen, out, i, k, m, end, h, l);
        assert Rejoins(head, k, tail, thresh, maxLen);
      } else {
        RepeatShift(head, tail, thresh, maxLen, h - (i + k), l);
      }
    }
    forall h: nat, l: nat | RepeatAt(tail, thresh, maxLen, h, l)
      ensures RepeatAt(out, thresh, maxLen, i + k + h, l)
    {
      RepeatShift(head, tail, thresh, maxLen, h, l);
    }
  }

  /** The same, of the pass itself: running it again on its result. */
  lemma SecondPassIff(s: string, thresh: nat, maxLen: nat, out: string, again: string)
    requires thresh >= 2 && CompressedTo(s, thresh, maxLen, out) && CompressedTo(out, thresh, maxLen, again)
    ensures again == out <==> NeverRejoins(s, thresh, maxLen)
  {
    hide CompressedTo, NeverRejoins, NoRepeat;
    OnePassEnough(s, thresh, maxLen, out);
    CompressIdentityIff(out, thresh, maxLen, again);
  }

  // ----- patterns of one character

  /** Compressing keeps the first character. */
  lemma FirstKept(s: string, thresh: nat, maxLen: nat, out: string)
    requires CompressedTo(s, thresh, maxLen, out)
    ensures out != [] ==> s != [] && out[0] == s[0]
  {
    hide Copies, CopyAt, NoRepeat;
    if out != s {
      var i: nat, k: nat, m: nat, end: nat :| CollapsedAt(s, thresh, maxLen, out, i, k, m, end);
      assert s[..i + k][0] == out[..i + k][0];
    }
  }

  /** A single character that was all of its run does not rejoin anything. */
  lemma RunEnds(s: string, thresh: nat, i: nat, m: nat, end: nat, tail: string)
    requires thresh >= 2 && Collapsible(s, thresh, 1, i, 1, m, end) && CompressedTo(s[end..], thresh, 1, tail)
    ensures !Rejoins(s[..i + 1], 1, tail, thresh, 1)
  {
    hide CompressedTo, Copies, FirstRepeat;
    FirstKept(s[end..], thresh, 1, tail);
    var (head, out) := (s[..i + 1], s[..i + 1] + tail);
    if h: nat, l: nat :| h < |head| && RepeatAt(out, thresh, 1, h, l) && Reaches(h, l, thresh, |head|, 1) {
      SameWithin(out, thresh, h, i - h);
      SameWithin(out, thresh, h, i + 1 - h);
      assert false;
    }
  }

  lemma SameWithin(s: string, n: nat, h: nat, j: nat)
    requires Copies(s, h, 1, n) && j < n
    ensures h + j < |s| && s[h + j] == s[h]
  {
    assert CopyAt(s, h, 1, j);
    assert s[h + j] == s[h + j * 1..h + j * 1 + 1][0] == s[h..h + 1][0];
  }

  /** Patterns of one character need one pass. */
  lemma {:induction false} RunsNeedOnePass(s: string, thresh: nat, maxLen: nat, out: string)
    requires thresh >= 2 && maxLen <= 1 && CompressedTo(s, thresh, maxLen, out)
    ensures NoRepeat(out, thresh, maxLen)
    decreases |s|
  {
    hide Copies, CopyAt, Rejoins;
    if NoRepeat(s, thresh, maxLen) {
      StaysWhole(s, thresh, maxLen, out);
    } else {
      var i: nat, k: nat, m: nat, end: nat :| CollapsedAt(s, thresh, maxLen, out, i, k, m, end);
      RunsNeedOnePass(s[end..], thresh, maxLen, out[i + k..]);
      RunEnds(s, thresh, i, m, end, out[i + k..]);
      CompressIdentityIff(s, thresh, maxLen, out);
      SplitRepeats(s, thresh, maxLen, out, i, k, m, end);
    }
  }

  ghost predicate OnePassForAll(thresh: nat, maxLen: nat) {
    forall s: string, out: string :: CompressedTo(s, thresh, maxLen, out) ==> NoRepeat(out, thresh, maxLen)
  }

  /** One pass is enough for every text exactly when patterns are single characters. */
  lemma OnePassForAllIff(thresh: nat, maxLen: nat)
    requires thresh >= 2
    ensures OnePassForAll(thresh, maxLen) <==> maxLen <= 1
  {
    hide Copies;
    if maxLen <= 1 {
      forall s: string, out: string | CompressedTo(s, thresh, maxLen, out)
        ensures NoRepeat(out, thresh, maxLen)
      {
        RunsNeedOnePass(s, thresh, maxLen, out);
      }
    } else {
      CompressedRepeats(thresh, maxLen);
      assert !NoRepeat(Alternating(thresh), thresh, maxLen);
    }
  }

  // ----- it is not always enough

  /** `ab` `n` times. */
  function Alternating(n: nat): (s: string)
    ensures |s| == 2 * n
  {
    seq<char>(2 * n, j => if j % 2 == 0 then 'a' else 'b')
  }

  /** An `a`, then `t` times `b`, then `ab` once less than `t` times. */
  function Stuttering(t: nat): (s: string)
    requires t > 0
    ensures |s| == 3 * t - 1
  {
    ['a'] + seq<char>(t, _ => 'b') + Alternating(t - 1)
  }

  lemma StutteringAt(t: nat, j: nat)
    requires t > 0 && j < 3 * t - 1
    ensures Stuttering(t)[j] == if j == 0 || (j > t && (j - t - 1) % 2 == 0) then 'a' else 'b'
  {
  }

  /** No pattern repeats at its first character: the second copy would have to start with `abb`. */
  lemma NothingAtStart(t: nat, maxLen: nat, l: nat)
    requires t >= 2
    ensures !RepeatAt(Stuttering(t), t, maxLen, 0, l)
  {
    if l > 0 {
      NoSecondCopy(t, l);
    }
  }

  lemma NoSecondCopy(t: nat, l: nat)
    requires t >= 2 && l > 0
    ensures !CopyAt(Stuttering(t), 0, l, 1)
  {
    var s := Stuttering(t);
    if l + l <= |s| {
      var x := if l <= t then 0 else if (l - t) % 2 == 0 then 1 else 2;
      StutteringAt(t, x);
      StutteringAt(t, l + x);
      assert s[0..l][x] != s[l..l + l][x];
    }
  }

  lemma StutteringCopies(t: nat)
    requires t >= 2
    ensures Copies(Stuttering(t), 1, 1, t) && !CopyAt(Stuttering(t), 1, 1, t)
  {
    var s := Stuttering(t);
    StutteringAt(t, 1);
    forall rep: nat | rep < t
      ensures CopyAt(s, 1, 1, rep)
    {
      StutteringAt(t, 1 + rep);
      assert s[1 + rep * 1..1 + rep * 1 + 1] == [s[1 + rep]] && s[1..2] == [s[1]];
    }
    StutteringAt(t, 1 + t);
    assert s[1 + t * 1..1 + t * 1 + 1][0] == 'a' && s[1..2][0] == 'b';
  }

  /** One pass need not be enough, whatever the threshold: of this text it leaves `ab` repeated as often as the
      threshold asks, which the text itself did not have. */
  lemma CompressedRepeats(t: nat, maxLen: nat)
    requires t >= 2 && maxLen >= 2
    ensures CompressedTo(Stuttering(t), t, maxLen, Alternating(t)) && RepeatAt(Alternating(t), t, maxLen, 0, 2)
  {
    hide Copies, CopyAt, Stuttering, Alternating, RepeatAt, NoRepeat;
    var (s, out) := (Stuttering(t), Alternating(t));
    StutteringCopies(t);
    StutteringFirst(t, maxLen);
    StutteringParts(t);
    TooShort(Alternating(t - 1), t, maxLen);
    assert CompressedTo(s[1 + t..], t, maxLen, out[2..]);
    assert CollapsedAt(s, t, maxLen, out, 1, 1, t, 1 + t);
    AlternatingRepeats(t, maxLen);
  }

  lemma StutteringFirst(t: nat, maxLen: nat)
    requires t >= 2 && maxLen >= 1
    ensures FirstRepeat(Stuttering(t), t, maxLen, 1, 1)
  {
    hide Copies, CopyAt, Stuttering;
    StutteringCopies(t);
    forall l: nat
      ensures !RepeatAt(Stuttering(t), t, maxLen, 0, l)
    {
      NothingAtStart(t, maxLen, l);
    }
  }

  lemma StutteringParts(t: nat)
    requires t >= 2
    ensures var (s, out) := (Stuttering(t), Alternating(t));
            s[1 + t..] == Alternating(t - 1) == out[2..] && s[..2] == out[..2]
  {
    var (s, out) := (Stuttering(t), Alternating(t));
    assert s[1 + t..] == Alternating(t - 1) == out[2..];
    assert s[..2] == ['a', 'b'] == out[..2];
  }

  lemma TooShort(s: string, thresh: nat, maxLen: nat)
    requires |s| < 2 * thresh
    ensures NoRepeat(s, thresh, maxLen)
  {
    hide Copies;
  }

  lemma AlternatingRepeats(t: nat, maxLen: nat)
    requires t >= 1 && maxLen >= 2
    ensures RepeatAt(Alternating(t), t, maxLen, 0, 2)
  {
    hide Copies;
    AlternatingCopies(t);
  }

  lemma AlternatingCopies(t: nat)
    ensures Copies(Alternating(t), 0, 2, t)
  {
    var s := Alternating(t);
    forall rep: nat | rep < t
      ensures CopyAt(s, 0, 2, rep)
    {
      assert s[0 + rep * 2..0 + rep * 2 + 2] == ['a', 'b'] == s[0..2];
    }
  }

  /** Texts without a run longer than the threshold. */
  ghost predicate ShortRuns(s: string, thresh: nat) {
    forall i: nat :: i + thresh < |s| ==> RunStops(s, i, thresh)
  }

  predicate RunStops(s: string, i: nat, thresh: nat)
    requires i + thresh < |s|
  {
    exists j :: i < j <= i + thresh && s[j] != s[i]
  }

  lemma {:induction false} ShortRunsStay(s: string, thresh: nat)
    requires ShortRuns(s, thresh)
    ensures CollapseRuns(s, thresh) == s
    decreases |s|
  {
    hide RunLength, ShortRuns;
    if s != [] {
      var n := RunLength(s);
      FirstRunShort(s, thresh);
      ShortRunsRest(s, thresh, n);
      ShortRunsStay(s[n..], thresh);
      assert s == s[..n] + s[n..];
    }
  }

  lemma FirstRunShort(s: string, thresh: nat)
    requires s != [] && ShortRuns(s, thresh)
    ensures RunLength(s) <= thresh
  {
    hide RunLength;
    assert thresh < |s| ==> RunStops(s, 0, thresh);
  }

  lemma ShortRunsRest(s: string, thresh: nat, n: nat)
    requires ShortRuns(s, thresh) && n <= |s|
    ensures ShortRuns(s[n..], thresh)
  {
    forall i: nat | i + thresh < |s[n..]|
      ensures RunStops(s[n..], i, thresh)
    {
      assert RunStops(s, n + i, thresh);
      var j :| n + i < j <= n + i + thresh && s[j] != s[n + i];
      assert s[n..][j - n] != s[n..][i];
    }
  }

  lemma StutteringShort(t: nat)
    requires t >= 2
    ensures ShortRuns(Stuttering(t), t)
  {
    hide Stuttering;
    forall i: nat | i + t < |Stuttering(t)|
      ensures RunStops(Stuttering(t), i, t)
    {
      var j := if 1 <= i <= t then t + 1 else i + 1;
      StutteringAt(t, i);
      StutteringAt(t, j);
      StopAt(Stuttering(t), i, t, j);
    }
  }

  lemma AlternatingShort(t: nat, n: nat)
    requires t >= 2
    ensures ShortRuns(Alternating(n), t)
  {
    forall i: nat | i + t < |Alternating(n)|
      ensures RunStops(Alternating(n), i, t)
    {
      StopAt(Alternating(n), i, t, i + 1);
    }
  }

  lemma StopAt(s: string, i: nat, thresh: nat, j: nat)
    requires i < j <= i + thresh < |s| && s[j] != s[i]
    ensures RunStops(s, i, thresh)
  {
  }

  lemma RepeatFound(s: string, thresh: nat, maxLen: nat, i: nat, k: nat)
    requires RepeatAt(s, thresh, maxLen, i, k)
    ensures !NoRepeat(s, thresh, maxLen)
  {
    hide RepeatAt;
  }

  /** Nor are both passes together: the runs of this text are short, so only its patterns are compressed, and
      compressing the result again changes it. */
  lemma BothPassesAgain(t: nat, again: string)
    requires t >= 2 && CompressedTo(CollapseRuns(Alternating(t), t), t, MAX_PATTERN_LEN, again)
    ensures CompressedTo(CollapseRuns(Stuttering(t), t), t, MAX_PATTERN_LEN, Alternating(t))
    ensures again != Alternating(t)
  {
    hide CompressedTo, CollapseRuns, Copies, Stuttering, Alternating, ShortRuns, NoRepeat;
    StutteringShort(t);
    AlternatingShort(t, t);
    ShortRunsStay(Stuttering(t), t);
    ShortRunsStay(Alternating(t), t);
    CompressedRepeats(t, MAX_PATTERN_LEN);
    RepeatFound(Alternating(t), t, MAX_PATTERN_LEN, 0, 2);
    CompressIdentityIff(Alternating(t), t, MAX_PATTERN_LEN, again);
  }
}
