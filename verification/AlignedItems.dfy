/** From model timestamps to word spans, within a chunk and across merged chunks: spans never end before
    they start and never overlap. */
module AlignedItems {
  import opened Prelude
  import opened LongestSubsequence
  import opened TimestampRepair

  datatype ItemMs = ItemMs(text: string, startMs: int, endMs: int)

  /** Spans in order, none overlapping the next. */
  ghost predicate OrderedSpans(items: seq<ItemMs>) {
    && (forall i :: 0 <= i < |items| ==> items[i].startMs <= items[i].endMs)
    && (forall i, j :: 0 <= i < j < |items| ==> items[i].endMs <= items[j].startMs)
  }

  /** Start and end of each word, one after the other. */
  function Pairs(items: seq<ItemMs>): (ms: seq<int>)
    ensures |ms| == 2 * |items|
  {
    seq(2 * |items|, k requires 0 <= k < 2 * |items| => if k % 2 == 0 then items[k / 2].startMs else items[k / 2].endMs)
  }

  lemma PairAt(items: seq<ItemMs>, i: nat)
    requires i < |items|
    ensures Pairs(items)[2 * i] == items[i].startMs && Pairs(items)[2 * i + 1] == items[i].endMs
  {
    assert 2 * i / 2 == i && (2 * i + 1) / 2 == i;
  }

  /** Spans are ordered exactly when their boundaries are. */
  lemma OrderedPairs(items: seq<ItemMs>)
    ensures OrderedSpans(items) <==> forall k, l :: 0 <= k < l < 2 * |items| ==> Pairs(items)[k] <= Pairs(items)[l]
  {
    hide Pairs;
    if forall k, l :: 0 <= k < l < 2 * |items| ==> Pairs(items)[k] <= Pairs(items)[l] {
      forall i, j | 0 <= i <= j < |items|
        ensures items[i].startMs <= items[i].endMs && (i < j ==> items[i].endMs <= items[j].startMs)
      {
        PairAt(items, i);
        PairAt(items, j);
        assert Pairs(items)[2 * i] <= Pairs(items)[2 * i + 1];
        assert i < j ==> Pairs(items)[2 * i + 1] <= Pairs(items)[2 * j];
      }
      assert forall i :: 0 <= i < |items| ==> items[i].startMs <= items[i].endMs;
    }
    if OrderedSpans(items) {
      forall k, l | 0 <= k < l < 2 * |items|
        ensures Pairs(items)[k] <= Pairs(items)[l]
      {
        PairAt(items, k / 2);
        PairAt(items, l / 2);
      }
    }
  }

  method ParseTimestamp(words: seq<string>, timestampMs: seq<real>)
    returns (r: Outcome<seq<ItemMs>>, ghost repaired: seq<real>, ghost kept: seq<nat>)
    ensures r.Ok? <==> words != [] && |timestampMs| == 2 * |words|
    ensures r.Ok? ==>
              Repaired(timestampMs, kept, repaired) && |r.value| == |words| && Pairs(r.value) == Truncated(repaired)
    ensures r.Ok? ==> forall k :: 0 <= k < 2 * |words| ==> TruncatesTo(repaired[k], Pairs(r.value)[k])
    ensures r.Ok? ==> OrderedSpans(r.value) && forall i :: 0 <= i < |words| ==> r.value[i].text == words[i]
  {
    repaired, kept := [], [];
    if words == [] {
      return Err("words is empty"), repaired, kept;
    }
    if |timestampMs| != 2 * |words| {
      return Err("timestamp_ms length mismatch"), repaired, kept;
    }
    var fixed;
    fixed, repaired, kept := FixTimestamp(timestampMs);
    hide Repaired, Truncated, OrderedSpans;
    var out := PairUp(words, fixed);
    OrderedPairs(out);
    r := Ok(out);
  }

  method PairUp(words: seq<string>, fixed: seq<int>) returns (out: seq<ItemMs>)
    requires |fixed| == 2 * |words|
    ensures |out| == |words| && Pairs(out) == fixed && forall i :: 0 <= i < |words| ==> out[i].text == words[i]
  {
    out := [];
    for i := 0 to |words|
      invariant |out| == i && forall k :: 0 <= k < i ==> out[k] == ItemMs(words[k], fixed[2 * k], fixed[2 * k + 1])
    {
      out := out + [ItemMs(words[i], fixed[2 * i], fixed[2 * i + 1])];
    }
  }

  // ----- merged chunks

  datatype TimestampItem = TimestampItem(text: string, startTime: real, endTime: real)

  /** `f64::round`: half away from zero. */
  function Round(x: real): int {
    if x >= 0.0 then (x + 0.5).Floor else -((-x + 0.5).Floor)
  }

  /** The nearest whole number; of two that are equally near the one farther from zero. */
  lemma RoundNearest(x: real)
    ensures -0.5 <= Round(x) as real - x <= 0.5
    ensures x >= 0.0 ==> Round(x) as real - x > -0.5
    ensures x <= 0.0 ==> Round(x) as real - x < 0.5
  {
  }

  function Seconds(ms: int): real {
    ms as real / 1000.0
  }

  /** Rounding a whole number of milliseconds to three decimals gives it back. */
  lemma RoundSeconds(ms: int)
    ensures Round(Seconds(ms) * 1000.0) == ms
    ensures Round(Seconds(ms) * 1000.0) as real / 1000.0 == Seconds(ms)
  {
    assert Seconds(ms) * 1000.0 == ms as real;
  }

  function InMs(items: seq<TimestampItem>): (ms: seq<ItemMs>)
    ensures |ms| == |items|
  {
    seq(|items|, i requires 0 <= i < |items| =>
      ItemMs(items[i].text, Round(items[i].startTime * 1000.0), Round(items[i].endTime * 1000.0)))
  }

  function Texts(items: seq<TimestampItem>): (texts: seq<string>)
    ensures |texts| == |items| && forall i :: 0 <= i < |items| ==> texts[i] == items[i].text
  {
    seq(|items|, i requires 0 <= i < |items| => items[i].text)
  }

  function AsReals(ms: seq<int>): (data: seq<real>)
    ensures |data| == |ms|
  {
    seq(|ms|, k requires 0 <= k < |ms| => ms[k] as real)
  }

  ghost predicate Ascending(ms: seq<int>) {
    forall k, l :: 0 <= k < l < |ms| ==> ms[k] <= ms[l]
  }

  method NeedsFix(ms: seq<int>) returns (needsFix: bool)
    ensures needsFix <==> !Ascending(ms)
  {
    var k := 1;
    while k < |ms|
      invariant 1 <= k && forall i, j :: 0 <= i < j < k && j < |ms| ==> ms[i] <= ms[j]
    {
      if ms[k - 1] > ms[k] {
        return true;
      }
      k := k + 1;
    }
    needsFix := false;
  }

  method CollectMs(items: seq<TimestampItem>) returns (ms: seq<int>)
    ensures ms == Pairs(InMs(items))
  {
    ms := [];
    for i := 0 to |items|
      invariant |ms| == 2 * i && ms == Pairs(InMs(items))[..2 * i]
    {
      hide Round;
      PairAt(InMs(items), i);
      ms := ms + [Round(items[i].startTime * 1000.0)];
      ms := ms + [Round(items[i].endTime * 1000.0)];
      assert Pairs(InMs(items))[..2 * (i + 1)] ==
        Pairs(InMs(items))[..2 * i] + [Pairs(InMs(items))[2 * i]] + [Pairs(InMs(items))[2 * i + 1]];
    }
  }

  /** The repaired time of boundary `k`: times are pushed up to zero on the way. */
  function Clamped(fixed: seq<int>, k: nat): int
    requires k < |fixed|
  {
    Max(fixed[k], 0)
  }

  method ApplyFixed(items: array<TimestampItem>, fixed: seq<int>)
    requires |fixed| == 2 * items.Length && Ascending(fixed)
    modifies items
    ensures Texts(items[..]) == Texts(old(items[..]))
    ensures forall i ::
              0 <= i < items.Length ==>
                items[i].startTime == Seconds(Clamped(fixed, 2 * i)) &&
                  items[i].endTime == Seconds(Clamped(fixed, 2 * i + 1))
  {
    hide Seconds, Round;
    ghost var before := items[..];
    var prevMs := 0;
    for i := 0 to items.Length
      invariant prevMs == if i == 0 then 0 else Clamped(fixed, 2 * i - 1)
      invariant items[i..] == before[i..]
      invariant forall k :: 0 <= k < i ==>
                  items[k].text == before[k].text && items[k].startTime == Seconds(Clamped(fixed, 2 * k)) &&
                    items[k].endTime == Seconds(Clamped(fixed, 2 * k + 1))
    {
      assert items[i] == items[i..][0] == before[i];
      var startMs := Max(fixed[2 * i], prevMs);
      var endMs := Max(fixed[2 * i + 1], startMs);
      assert startMs == Clamped(fixed, 2 * i) && endMs == Clamped(fixed, 2 * i + 1);
      prevMs := endMs;
      RoundSeconds(startMs);
      RoundSeconds(endMs);
      items[i] := items[i].(startTime := Round(Seconds(startMs) * 1000.0) as real / 1000.0,
                            endTime := Round(Seconds(endMs) * 1000.0) as real / 1000.0);
    }
  }

  /** Chunks merged out of order are repaired once more; what is already in order is left alone. */
  method RepairMergedAlignItems(items: array<TimestampItem>) returns (ghost repaired: seq<real>, ghost kept: seq<nat>)
    modifies items
    ensures Texts(items[..]) == Texts(old(items[..]))
    ensures OrderedSpans(InMs(items[..]))
    ensures OrderedSpans(InMs(old(items[..]))) ==> items[..] == old(items[..])
    ensures !OrderedSpans(InMs(old(items[..]))) ==>
              && Repaired(AsReals(Pairs(InMs(old(items[..])))), kept, repaired)
              && |repaired| == 2 * items.Length
              && forall i :: 0 <= i < items.Length ==>
                   items[i].startTime == Seconds(Clamped(Truncated(repaired), 2 * i)) &&
                     items[i].endTime == Seconds(Clamped(Truncated(repaired), 2 * i + 1))
    ensures !OrderedSpans(InMs(old(items[..]))) ==> KeptInMs(old(items[..]), kept, items[..])
  {
    hide Round, Repaired, Truncated, Seconds, OrderedSpans, Pairs, KeptInMs;
    repaired, kept := [], [];
    OrderedPairs(InMs(items[..]));
    if items.Length == 0 {
      return;
    }
    var ms := CollectMs(items[..]);
    var needsFix := NeedsFix(ms);
    if !needsFix {
      return;
    }
    var fixed;
    fixed, repaired, kept := FixTimestamp(AsReals(ms));
    RepairedLength(AsReals(ms), kept, repaired);
    ghost var before := items[..];
    ApplyFixed(items, fixed);
    KeptStays(before, kept, fixed, items[..]);
    ClampedOrdered(items[..], fixed);
  }

  /** A boundary that was kept is where it was, to the millisecond, and not before zero. */
  ghost predicate KeptInMs(before: seq<TimestampItem>, kept: seq<nat>, after: seq<TimestampItem>) {
    && |after| == |before|
    && forall i :: 0 <= i < |before| ==>
         && (2 * i in kept ==> after[i].startTime == Seconds(Max(InMs(before)[i].startMs, 0)))
         && (2 * i + 1 in kept ==> after[i].endTime == Seconds(Max(InMs(before)[i].endMs, 0)))
  }

  lemma WholeReals(ms: seq<int>)
    ensures forall k :: 0 <= k < |ms| ==> Whole(AsReals(ms)[k])
  {
  }

  lemma KeptStays(before: seq<TimestampItem>, kept: seq<nat>, fixed: seq<int>, after: seq<TimestampItem>)
    requires |after| == |before| && |fixed| == 2 * |before|
    requires forall k: nat :: k in kept ==> k < |fixed|
    requires forall k: nat :: k in kept && Whole(AsReals(Pairs(InMs(before)))[k]) ==>
               fixed[k] as real == AsReals(Pairs(InMs(before)))[k]
    requires forall i ::
               0 <= i < |after| ==>
                 after[i].startTime == Seconds(Clamped(fixed, 2 * i)) &&
                   after[i].endTime == Seconds(Clamped(fixed, 2 * i + 1))
    ensures KeptInMs(before, kept, after)
  {
    hide Round, Seconds, Pairs, InMs;
    WholeReals(Pairs(InMs(before)));
    forall i | 0 <= i < |before|
      ensures 2 * i in kept ==> fixed[2 * i] == InMs(before)[i].startMs
      ensures 2 * i + 1 in kept ==> fixed[2 * i + 1] == InMs(before)[i].endMs
    {
      PairAt(InMs(before), i);
      assert AsReals(Pairs(InMs(before)))[2 * i] == Pairs(InMs(before))[2 * i] as real;
      assert AsReals(Pairs(InMs(before)))[2 * i + 1] == Pairs(InMs(before))[2 * i + 1] as real;
    }
  }

  lemma RepairedLength(data: seq<real>, kept: seq<nat>, repaired: seq<real>)
    requires Repaired(data, kept, repaired)
    ensures |repaired| == |data| && forall k: nat :: k in kept ==> k < |data|
  {
    hide Longest, FewestChanges, RunsFilled, NonDecreasing;
  }

  lemma ClampedOrdered(items: seq<TimestampItem>, fixed: seq<int>)
    requires |fixed| == 2 * |items| && Ascending(fixed)
    requires forall i ::
              0 <= i < |items| ==>
                items[i].startTime == Seconds(Clamped(fixed, 2 * i)) &&
                  items[i].endTime == Seconds(Clamped(fixed, 2 * i + 1))
    ensures OrderedSpans(InMs(items))
  {
    hide Round, Seconds;
    forall i | 0 <= i < |items|
      ensures InMs(items)[i].startMs == Clamped(fixed, 2 * i) && InMs(items)[i].endMs == Clamped(fixed, 2 * i + 1)
    {
      RoundSeconds(Clamped(fixed, 2 * i));
      RoundSeconds(Clamped(fixed, 2 * i + 1));
    }
  }
}
