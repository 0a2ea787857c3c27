/** The encoder's forward pass over one audio, with its window, ragged-index and segment accounting. */
module EncoderForward {
  import opened Prelude
  import opened FeatLengths
  import opened FeatureExtractor
  import opened AudioEncoder

  /** Segment boundaries: from 0, in steps of `size`, to `n`. */
  ghost predicate Boundaries(cu: seq<nat>, n: nat, size: nat) {
    && cu != []
    && cu[0] == 0
    && cu[|cu| - 1] == n
    && forall i: nat :: i + 1 < |cu| ==> NextBoundary(cu, i, n, size)
  }

  ghost predicate NextBoundary(cu: seq<nat>, i: nat, n: nat, size: nat)
    requires i + 1 < |cu|
  {
    cu[i] < n && cu[i + 1] == Min(cu[i] + size, n)
  }

  method CuSeqlensFromAftercnnLen(aftercnnLen: nat, maxChunkLenAftercnn: nat, window: nat, windowInfer: nat)
    returns (r: Outcome<seq<nat>>)
    ensures aftercnnLen == 0 ==> r == Ok([0])
    ensures aftercnnLen > 0 ==> (r.Ok? <==> window > 0 && maxChunkLenAftercnn > 0 && Quotient(windowInfer, window) > 0)
    ensures aftercnnLen > 0 && r.Ok? ==>
              Boundaries(r.value, aftercnnLen, maxChunkLenAftercnn * Quotient(windowInfer, window))
  {
    if aftercnnLen == 0 {
      return Ok([0]);
    }
    if window == 0 {
      return Err("audio_config window must be > 0");
    }
    var ratio := Quotient(windowInfer, window);
    if ratio == 0 {
      return Err("n_window_infer must be at least the window");
    }
    var windowAftercnn := maxChunkLenAftercnn * ratio;
    if windowAftercnn == 0 {
      return Err("invalid window_aftercnn=0");
    }
    var cu: seq<nat> := [0];
    var offset := 0;
    while offset < aftercnnLen
      invariant cu != [] && cu[0] == 0 && cu[|cu| - 1] == offset <= aftercnnLen
      invariant forall i: nat :: i + 1 < |cu| ==> NextBoundary(cu, i, aftercnnLen, windowAftercnn)
    {
      var remaining := aftercnnLen - offset;
      var step := Min(remaining, windowAftercnn);
      offset := offset + step;
      ghost var before := cu;
      cu := cu + [offset];
      forall i: nat | i + 1 < |cu|
        ensures NextBoundary(cu, i, aftercnnLen, windowAftercnn)
      {
        if i + 1 < |before| {
          assert NextBoundary(before, i, aftercnnLen, windowAftercnn);
        }
      }
    }
    r := Ok(cu);
  }

  /** Every segment attends to itself. */
  method AttendSegments(e: Encoder, rows: seq<Row>, cu: seq<nat>, ghost size: nat) returns (out: seq<Row>)
    requires size > 0 && Boundaries(cu, |rows|, size)
    ensures out == Attended(e, rows, size)
  {
    out := [];
    var i := 0;
    assert rows[0..] == rows;
    while i + 1 < |cu|
      invariant i < |cu| && cu[i] <= |rows|
      invariant out + Attended(e, rows[cu[i]..], size) == Attended(e, rows, size)
    {
      assert NextBoundary(cu, i, |rows|, size);
      var rest := rows[cu[i]..];
      assert rows[cu[i]..cu[i + 1]] == rest[..cu[i + 1] - cu[i]];
      if |rest| > size {
        assert rest[size..] == rows[cu[i + 1]..];
      } else {
        assert rest[..|rest|] == rest;
      }
      out := out + e.attend(rows[cu[i]..cu[i + 1]]);
      i := i + 1;
    }
  }

  /** Row `j` of window `c` in the flattened convolution output. */
  lemma {:induction false} FlattenUniform<T>(rows: seq<seq<T>>, width: nat, c: nat, j: nat)
    requires (forall i :: 0 <= i < |rows| ==> |rows[i]| == width) && c < |rows| && j < width
    ensures |Flatten(rows)| == |rows| * width && c * width + j < |Flatten(rows)|
    ensures Flatten(rows)[c * width + j] == rows[c][j]
  {
    var k := |rows| - 1;
    UniformLength(rows[..k], width);
    Previous(|rows|, width);
    if c < k {
      FlattenUniform(rows[..k], width, c, j);
    }
  }

  lemma {:induction false} UniformLength<T>(rows: seq<seq<T>>, width: nat)
    requires forall i :: 0 <= i < |rows| ==> |rows[i]| == width
    ensures |Flatten(rows)| == |rows| * width
  {
    if rows != [] {
      UniformLength(rows[..|rows| - 1], width);
      Previous(|rows|, width);
    }
  }

  function Gather<T>(flat: seq<T>, idxs: seq<nat>): (r: seq<T>)
    requires forall k :: 0 <= k < |idxs| ==> idxs[k] < |flat|
    ensures |r| == |idxs| && forall k :: 0 <= k < |idxs| ==> r[k] == flat[idxs[k]]
  {
    seq(|idxs|, k requires 0 <= k < |idxs| => flat[idxs[k]])
  }

  /** The windows read so far, convolved, and their rows of real frames. */
  ghost predicate Windows(e: Encoder, frames: seq<Frame>, offset: nat, convOuts: seq<seq<Row>>, lens: seq<nat>) {
    && e.nWindow > 0
    && offset <= |frames|
    && |convOuts| == |lens|
    && (forall c :: 0 <= c < |lens| ==> |convOuts[c]| == AfterConvolutions(Window(e)))
    && ((forall c :: 0 <= c < |lens| ==> lens[c] <= AfterConvolutions(Window(e))) ==>
        Flatten(KeptOf(convOuts, lens)) + Rows(e, frames[offset..]) == Rows(e, frames))
    && Sum(lens) + KeptRows(Window(e), |frames| - offset) == KeptRows(Window(e), |frames|)
  }

  ghost function KeptOf(convOuts: seq<seq<Row>>, lens: seq<nat>): (kept: seq<seq<Row>>)
    requires |convOuts| == |lens|
    ensures |kept| == |lens|
  {
    seq(|lens|, c requires 0 <= c < |lens| => if lens[c] <= |convOuts[c]| then convOuts[c][..lens[c]] else convOuts[c])
  }

  /** The lengths of the windows: all full, except that the last may be shorter. */
  function WindowLength(frames: nat, window: nat, c: nat): nat
    requires window > 0
  {
    if c + 1 == DivCeil(frames, window) && frames % window != 0 then frames % window else window
  }

  lemma WindowFits(frames: nat, window: nat, c: nat)
    requires window > 0 && c < DivCeil(frames, window)
    ensures c * window + WindowLength(frames, window, c) == Min((c + 1) * window, frames)
    ensures 0 < WindowLength(frames, window, c) <= window
  {
    var n := DivCeil(frames, window);
    Previous(c + 1, window);
    Previous(n, window);
    MulMonotone(c, n - 1, window);
    if c < n - 1 {
      MulMonotone(c + 1, n - 1, window);
    } else {
      Remainder(frames, window, c);
    }
  }

  lemma Remainder(frames: nat, window: nat, c: nat)
    requires window > 0 && c * window < frames <= c * window + window
    ensures frames % window != 0 ==> frames == c * window + frames % window
    ensures frames % window == 0 ==> frames == c * window + window
  {
    var (q, m) := (frames / window, frames % window);
    assert frames == q * window + m;
    if q < c {
      MulMonotone(q + 1, c, window);
    } else if q > c + 1 {
      MulMonotone(c + 2, q, window);
    }
  }

  /** One more window. */
  lemma WindowTaken(e: Encoder, frames: seq<Frame>, offset: nat, convOuts: seq<seq<Row>>, lens: seq<nat>,
                    chunk: seq<Frame>)
    requires WellShaped(e) && Windows(e, frames, offset, convOuts, lens) && offset < |frames|
    requires chunk == frames[offset..Min(offset + Window(e), |frames|)]
    ensures Windows(e, frames, offset + |chunk|, convOuts + [e.convolve(PadChunk(e, chunk))],
                    lens + [FeatExtractOutputLength(|chunk|)])
  {
    hide Rows, FeatExtractOutputLength, KeptRows, AfterConvolutions, KeptOf, Flatten;
    var (outs, ls, rest) :=
      (convOuts + [e.convolve(PadChunk(e, chunk))], lens + [FeatExtractOutputLength(|chunk|)], frames[offset..]);
    assert ls[..|lens|] == lens;
    KeptStep(e, |rest|);
    assert chunk == rest[..Min(Window(e), |rest|)] && frames[offset + |chunk|..] == rest[|chunk|..];
    FirstRows(e, rest);
    if forall c :: 0 <= c < |ls| ==> ls[c] <= AfterConvolutions(Window(e)) {
      assert forall c :: 0 <= c < |lens| ==> lens[c] == ls[c];
      KeptGrows(convOuts, lens, e.convolve(PadChunk(e, chunk)), FeatExtractOutputLength(|chunk|));
      assert Flatten(KeptOf(outs, ls)) + Rows(e, rest[|chunk|..]) ==
        Flatten(KeptOf(convOuts, lens)) + (ChunkRows(e, chunk) + Rows(e, rest[|chunk|..]));
    }
  }

  lemma KeptGrows(convOuts: seq<seq<Row>>, lens: seq<nat>, out: seq<Row>, len: nat)
    requires |convOuts| == |lens|
    ensures Flatten(KeptOf(convOuts + [out], lens + [len])) ==
              Flatten(KeptOf(convOuts, lens)) + if len <= |out| then out[..len] else out
  {
    var kept := KeptOf(convOuts + [out], lens + [len]);
    assert kept[..|lens|] == KeptOf(convOuts, lens);
  }

  lemma FirstRows(e: Encoder, frames: seq<Frame>)
    requires e.nWindow > 0 && frames != []
    ensures var len := Min(Window(e), |frames|);
            Rows(e, frames) == ChunkRows(e, frames[..len]) + Rows(e, frames[len..])
  {
    if |frames| <= Window(e) {
      assert frames[..|frames|] == frames && Rows(e, frames[|frames|..]) == [];
    }
  }

  lemma KeptStep(e: Encoder, n: nat)
    requires e.nWindow > 0 && n > 0
    ensures KeptRows(Window(e), n) ==
              FeatExtractOutputLength(Min(Window(e), n)) + KeptRows(Window(e), n - Min(Window(e), n))
  {
    hide FeatExtractOutputLength;
    if n <= Window(e) {
      RowsPositive(0);
    }
  }

  /** Cut the frames into windows, pad the last, and convolve each. */
  method ConvolveWindows(e: Encoder, frames: seq<Frame>) returns (r: Outcome<(seq<seq<Row>>, seq<nat>)>)
    requires WellShaped(e) && e.nWindow > 0 && frames != []
    ensures r.Ok? && Windows(e, frames, |frames|, r.value.0, r.value.1)
    ensures r.value.1 != [] && r.value.1[0] == FeatExtractOutputLength(Min(|frames|, Window(e)))
    ensures forall len :: len in r.value.1 ==> len <= r.value.1[0]
  {
    hide Windows, FeatExtractOutputLength;
    var window := Window(e);
    var chunkNum := DivCeil(|frames|, window);
    var convOuts: seq<seq<Row>> := [];
    var lens: seq<nat> := [];
    var offset := 0;
    NoWindows(e, frames);
    for c := 0 to chunkNum
      invariant offset == Min(c * window, |frames|) && |lens| == c
      invariant Windows(e, frames, offset, convOuts, lens)
      invariant c > 0 ==>
                lens[0] == FeatExtractOutputLength(Min(|frames|, window)) && forall l :: l in lens ==> l <= lens[0]
    {
      var len := WindowLength(|frames|, window, c);
      WindowFits(|frames|, window, c);
      Previous(c + 1, window);
      if offset + len > |frames| {
        return Err("chunk split overflow");
      }
      var chunk := frames[offset..offset + len];
      WindowTaken(e, frames, offset, convOuts, lens, chunk);
      RowsMonotone(len, Min(|frames|, window));
      convOuts := convOuts + [e.convolve(PadChunk(e, chunk))];
      lens := lens + [FeatExtractOutputLength(len)];
      offset := offset + len;
    }
    if offset != |frames| {
      return Err("chunk split did not consume full sequence");
    }
    r := Ok((convOuts, lens));
  }

  lemma NoWindows(e: Encoder, frames: seq<Frame>)
    requires e.nWindow > 0
    ensures Windows(e, frames, 0, [], [])
  {
    assert frames[0..] == frames;
  }

  ghost predicate Placed(flat: seq<Row>, base: nat, row: seq<Row>) {
    base + |row| <= |flat| && forall j :: 0 <= j < |row| ==> flat[base + j] == row[j]
  }

  lemma RowsPlaced(convOuts: seq<seq<Row>>, maxT: nat, c: nat)
    requires (forall i :: 0 <= i < |convOuts| ==> |convOuts[i]| == maxT) && c < |convOuts|
    ensures Placed(Flatten(convOuts), c * maxT, convOuts[c])
  {
    hide Flatten;
    UniformLength(convOuts, maxT);
    Previous(c + 1, maxT);
    MulMonotone(c + 1, |convOuts|, maxT);
    forall j | 0 <= j < maxT
      ensures Flatten(convOuts)[c * maxT + j] == convOuts[c][j]
    {
      FlattenUniform(convOuts, maxT, c, j);
    }
  }

  /** The indices of one window's kept rows. */
  method WindowIndices(before: seq<nat>, base: nat, len: nat, ghost flat: seq<Row>, ghost row: seq<Row>)
    returns (idxs: seq<nat>)
    requires Placed(flat, base, row) && len <= |row| && forall k :: 0 <= k < |before| ==> before[k] < |flat|
    ensures |idxs| == |before| + len && forall k :: 0 <= k < |idxs| ==> idxs[k] < |flat|
    ensures Gather(flat, idxs) == Gather(flat, before) + row[..len]
  {
    idxs := before;
    for j := 0 to len
      invariant |idxs| == |before| + j && forall k :: 0 <= k < |idxs| ==> idxs[k] < |flat|
      invariant Gather(flat, idxs) == Gather(flat, before) + row[..j]
    {
      ghost var was := idxs;
      idxs := idxs + [base + j];
      assert Gather(flat, idxs) == Gather(flat, was) + [row[j]];
      assert row[..j + 1] == row[..j] + [row[j]];
    }
  }

  lemma NoneTaken(flat: seq<Row>, kept: seq<seq<Row>>, lens: seq<nat>)
    ensures Gather(flat, []) == Flatten(kept[..0]) && Sum(lens[..0]) == 0
  {
  }

  /** Where the kept rows lie in the flattened output. */
  method RaggedIndices(lens: seq<nat>, maxT: nat, ghost convOuts: seq<seq<Row>>) returns (r: Outcome<seq<nat>>)
    requires |convOuts| == |lens| && forall c :: 0 <= c < |lens| ==> |convOuts[c]| == maxT
    ensures r.Ok? <==> forall c :: 0 <= c < |lens| ==> lens[c] <= maxT
    ensures r.Ok? ==> |r.value| == Sum(lens) && forall k :: 0 <= k < |r.value| ==> r.value[k] < |Flatten(convOuts)|
    ensures r.Ok? ==> Gather(Flatten(convOuts), r.value) == Flatten(KeptOf(convOuts, lens))
  {
    hide Flatten, Sum, Gather;
    ghost var flat := Flatten(convOuts);
    ghost var kept := KeptOf(convOuts, lens);
    NoneTaken(flat, kept, lens);
    var idxs: seq<nat> := [];
    for c := 0 to |lens|
      invariant forall b :: 0 <= b < c ==> lens[b] <= maxT
      invariant |idxs| == Sum(lens[..c]) && forall k :: 0 <= k < |idxs| ==> idxs[k] < |flat|
      invariant Gather(flat, idxs) == Flatten(kept[..c])
    {
      if lens[c] > maxT {
        return Err("aftercnn_len exceeds max_t");
      }
      RowsPlaced(convOuts, maxT, c);
      idxs := WindowIndices(idxs, c * maxT, lens[c], flat, convOuts[c]);
      assert kept[c] == convOuts[c][..lens[c]];
      FlattenPrefix(kept, c);
      SumPrefix(lens, c);
    }
    assert lens[..|lens|] == lens && kept[..|lens|] == kept;
    r := Ok(idxs);
  }

  /** The windows' checks are the encoder's acceptance. */
  lemma WindowsAccepted(e: Encoder, frames: seq<Frame>, convOuts: seq<seq<Row>>, lens: seq<nat>)
    requires e.nWindow > 0 && Windows(e, frames, |frames|, convOuts, lens)
    requires lens != [] && lens[0] == FeatExtractOutputLength(Min(|frames|, Window(e)))
    requires forall len :: len in lens ==> len <= lens[0]
    ensures (forall c :: 0 <= c < |lens| ==> lens[c] <= AfterConvolutions(Window(e))) <==>
              lens[0] <= AfterConvolutions(Window(e))
    ensures Sum(lens) == KeptRows(Window(e), |frames|)
    ensures lens[0] <= AfterConvolutions(Window(e)) ==> Flatten(KeptOf(convOuts, lens)) == Rows(e, frames)
  {
    hide FeatExtractOutputLength, AfterConvolutions;
    assert forall c :: 0 <= c < |lens| ==> lens[c] in lens;
    RowsPositive(0);
    NoRows(e, frames[|frames|..]);
    assert Flatten(KeptOf(convOuts, lens)) + [] == Flatten(KeptOf(convOuts, lens));
  }

  method ForwardOne(e: Encoder, frames: seq<Frame>) returns (r: Outcome<seq<Row>>)
    requires WellShaped(e) && frames != []
    ensures r.Ok? <==> Accepts(e, |frames|)
    ensures r.Ok? ==> r.value == Encoded(e, frames)
  {
    hide Windows, KeptRows, Rows, FeatExtractOutputLength, AfterConvolutions;
    var window := Window(e);
    if window == 0 {
      return Err("audio_config.n_window must be > 0");
    }
    var windows := ConvolveWindows(e, frames);
    var (convOuts, lens) := (windows.value.0, windows.value.1);
    var maxT := AfterConvolutions(window);
    WindowsShaped(e, frames, convOuts, lens);
    WindowsAccepted(e, frames, convOuts, lens);
    var idxs := RaggedIndices(lens, maxT, convOuts);
    if idxs.Err? {
      return Err("aftercnn_len exceeds max_t");
    }
    var hidden := Gather(Flatten(convOuts), idxs.value);
    KeptPositive(e, |frames|);
    if e.flash {
      var aftercnnTotal := FeatExtractOutputLength(|frames|);
      if aftercnnTotal != |idxs.value| {
        return Err("aftercnn length mismatch");
      }
      var cu := CuSeqlensFromAftercnnLen(aftercnnTotal, maxT, window, e.nWindowInfer);
      if cu.Err? {
        RatioOnly(e);
        return Err(cu.error);
      }
      var out := AttendSegments(e, hidden, cu.value, SegmentRows(e));
      return Ok(out);
    }
    r := Ok(e.attend(hidden));
  }

  lemma WindowsShaped(e: Encoder, frames: seq<Frame>, convOuts: seq<seq<Row>>, lens: seq<nat>)
    requires Windows(e, frames, |frames|, convOuts, lens)
    ensures |convOuts| == |lens| && forall c :: 0 <= c < |lens| ==> |convOuts[c]| == AfterConvolutions(Window(e))
  {
  }

  lemma KeptPositive(e: Encoder, frames: nat)
    requires e.nWindow > 0 && frames > 0
    ensures KeptRows(Window(e), frames) > 0
  {
    KeptStep(e, frames);
    RowsPositive(Min(Window(e), frames));
  }

  lemma RatioOnly(e: Encoder)
    requires e.nWindow > 0
    ensures AfterConvolutions(Window(e)) > 0
  {
    AfterConvolutionsEighth(Window(e));
  }
}
