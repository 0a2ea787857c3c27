/** The audio encoder: frames are convolved window by window, and the rows attend within segments. */
module AudioEncoder {
  import opened Prelude
  import opened FeatLengths
  import opened FeatureExtractor

  type Row(!new, 0)

  /** The convolutions work on a padded window; the attention layers and projections work on a segment of
      rows. `nWindowInfer` frames make a segment when flash attention is on. */
  datatype Encoder = Encoder(convolve: seq<Frame> -> seq<Row>, attend: seq<Row> -> seq<Row>, silence: Frame,
                             nWindow: nat, nWindowInfer: nat, flash: bool)

  function Window(e: Encoder): nat { e.nWindow * 2 }

  ghost predicate WellShaped(e: Encoder) {
    && (forall chunk :: |chunk| == Window(e) ==> |e.convolve(chunk)| == AfterConvolutions(Window(e)))
    && forall rows :: |e.attend(rows)| == |rows|
  }

  function Quotient(a: nat, b: nat): (q: nat)
    requires b > 0
    ensures q * b <= a < q * b + b
  {
    a / b
  }

  function Ratio(e: Encoder): nat
    requires e.nWindow > 0
  {
    Quotient(e.nWindowInfer, Window(e))
  }

  /** Rows in a full segment. */
  function SegmentRows(e: Encoder): nat
    requires e.nWindow > 0
  {
    AfterConvolutions(Window(e)) * Ratio(e)
  }

  // ----- what the encoder computes

  function PadChunk(e: Encoder, chunk: seq<Frame>): (r: seq<Frame>)
    requires |chunk| <= Window(e)
    ensures |r| == Window(e) && chunk <= r
  {
    chunk + seq(Window(e) - |chunk|, _ => e.silence)
  }

  /** The rows of a window that stand for its real frames. */
  function ChunkRows(e: Encoder, chunk: seq<Frame>): seq<Row>
    requires |chunk| <= Window(e)
  {
    var rows := e.convolve(PadChunk(e, chunk));
    if FeatExtractOutputLength(|chunk|) <= |rows| then rows[..FeatExtractOutputLength(|chunk|)] else rows
  }

  function Rows(e: Encoder, frames: seq<Frame>): seq<Row>
    requires e.nWindow > 0
    decreases |frames|
  {
    if frames == [] then []
    else if |frames| <= Window(e) then ChunkRows(e, frames)
    else ChunkRows(e, frames[..Window(e)]) + Rows(e, frames[Window(e)..])
  }

  /** Each segment of `size` rows attends to itself only. */
  function Attended(e: Encoder, rows: seq<Row>, size: nat): seq<Row>
    requires size > 0
    decreases |rows|
  {
    if rows == [] then []
    else if |rows| <= size then e.attend(rows)
    else e.attend(rows[..size]) + Attended(e, rows[size..], size)
  }

  ghost predicate Usable(e: Encoder) {
    e.nWindow > 0 && (e.flash ==> Ratio(e) > 0)
  }

  lemma SegmentRowsPositive(e: Encoder)
    requires e.nWindow > 0 && Ratio(e) > 0
    ensures SegmentRows(e) > 0
  {
    AfterConvolutionsEighth(Window(e));
    MulMonotone(1, Ratio(e), AfterConvolutions(Window(e)));
  }

  ghost function Encoded(e: Encoder, frames: seq<Frame>): seq<Row>
    requires Usable(e)
  {
    var rows := Rows(e, frames);
    if rows == [] then []
    else if e.flash then
      SegmentRowsPositive(e);
      Attended(e, rows, SegmentRows(e))
    else e.attend(rows)
  }

  // ----- when the encoder's own length checks pass

  /** Rows kept of `frames` frames, window by window. */
  function KeptRows(window: nat, frames: nat): nat
    requires window > 0
  {
    if frames <= window then FeatExtractOutputLength(frames)
    else FeatExtractOutputLength(window) + KeptRows(window, frames - window)
  }

  /** Every window's rows exist, and with flash attention they add up to the length of the whole. */
  ghost predicate Accepts(e: Encoder, frames: nat) {
    && Usable(e)
    && FeatExtractOutputLength(Min(frames, Window(e))) <= AfterConvolutions(Window(e))
    && (e.flash ==> KeptRows(Window(e), frames) == FeatExtractOutputLength(frames))
  }

  lemma RowsPositive(n: nat)
    ensures n > 0 <==> FeatExtractOutputLength(n) > 0
  {
    hide FeatExtractOutputLength;
    RowsOf(n);
  }

  /** Rows of the first `n` frames never exceed those of more. */
  lemma RowsMonotone(a: nat, b: nat)
    requires a <= b
    ensures FeatExtractOutputLength(a) <= FeatExtractOutputLength(b)
  {
    hide FeatExtractOutputLength;
    RowsOf(a);
    RowsOf(b);
    DivCeilLeast(a % 100, 8, 13);
    if a / 100 == b / 100 {
      DivCeilMonotone(a % 100, b % 100, 8);
    }
  }

  lemma {:induction false} HundredKept(frames: nat)
    ensures KeptRows(100, frames) == FeatExtractOutputLength(frames)
  {
    hide FeatExtractOutputLength;
    if frames > 100 {
      HundredKept(frames - 100);
      RowsAdd(100, frames - 100);
    }
  }

  lemma {:induction false} WholeWindowsKept(window: nat, k: nat)
    requires window > 0
    ensures k > 0 ==> KeptRows(window, k * window) == k * FeatExtractOutputLength(window)
  {
    hide FeatExtractOutputLength;
    if k > 1 {
      WholeWindowsKept(window, k - 1);
      assert k * window == (k - 1) * window + window;
      MulMonotone(1, k - 1, window);
      assert k * FeatExtractOutputLength(window) ==
        (k - 1) * FeatExtractOutputLength(window) + FeatExtractOutputLength(window);
    }
  }

  /** With flash attention the encoder takes audio of every length if its window is a hundred frames ... */
  lemma HundredAccepted(e: Encoder, frames: nat)
    requires Usable(e) && Window(e) == 100
    ensures Accepts(e, frames)
  {
    hide FeatExtractOutputLength;
    HundredKept(frames);
    RowsMonotone(Min(frames, 100), 100);
    RowsOf(100);
    AfterConvolutionsEighth(100);
    EighthsNone();
  }

  /** A length the encoder refuses, for any other window. */
  function Refused(window: nat): nat {
    if window % 100 == 0 then window else 100 * window
  }

  /** ... and only then. */
  lemma OnlyHundredAccepted(e: Encoder)
    requires Usable(e) && e.flash && Window(e) != 100
    ensures !Accepts(e, Refused(Window(e)))
  {
    hide FeatExtractOutputLength, DivCeil;
    var w := Window(e);
    var (q, l) := (w / 100, w % 100);
    RowsAt(q, l);
    if l == 0 {
      EighthsNone();
      AfterConvolutionsEighth(w);
      DivCeilLeast(w, 8, 13 * q - 1);
    } else {
      WholeWindowsKept(w, 100);
      RowsAt(w, 0);
      EighthsNone();
      HundredthsOf(DivCeil(l, 8), l);
    }
  }

  lemma HundredthsOf(c: nat, l: nat)
    requires 0 < l < 100
    ensures 100 * c != 13 * l
  {
  }

  /** An encoder with a hundred as its `nWindow` convolves two hundred frames at a time, and refuses two hundred
      frames of audio. */
  lemma DefaultRefused(e: Encoder)
    requires Usable(e) && e.flash && e.nWindow == 100
    ensures !Accepts(e, 200)
  {
    hide FeatExtractOutputLength;
    OnlyHundredAccepted(e);
  }

  /** Fifty is the only `nWindow` that is never refused. */
  lemma FiftyAccepted(e: Encoder)
    requires Usable(e) && e.flash
    ensures (forall frames: nat :: Accepts(e, frames)) <==> e.nWindow == 50
  {
    hide FeatExtractOutputLength, Accepts;
    if e.nWindow == 50 {
      forall frames: nat
        ensures Accepts(e, frames)
      {
        HundredAccepted(e, frames);
      }
    } else {
      OnlyHundredAccepted(e);
    }
  }

  // ----- cutting the rows at a segment

  lemma {:induction false} RowsLength(e: Encoder, frames: seq<Frame>)
    requires WellShaped(e) && Window(e) == 100
    ensures |Rows(e, frames)| == FeatExtractOutputLength(|frames|)
    decreases |frames|
  {
    hide FeatExtractOutputLength;
    RowsPositive(0);
    ChunkRowsLength(e, frames[..Min(|frames|, 100)]);
    if |frames| > 100 {
      RowsLength(e, frames[100..]);
      RowsAdd(100, |frames| - 100);
    } else {
      assert frames[..|frames|] == frames;
    }
  }

  lemma ChunkRowsLength(e: Encoder, chunk: seq<Frame>)
    requires WellShaped(e) && Window(e) == 100 && |chunk| <= 100
    ensures |ChunkRows(e, chunk)| == FeatExtractOutputLength(|chunk|)
  {
    hide FeatExtractOutputLength;
    RowsMonotone(|chunk|, 100);
    RowsOf(100);
    AfterConvolutionsEighth(100);
    EighthsNone();
  }

  /** Whole windows can be convolved apart from what follows. */
  lemma {:induction false} RowsSplit(e: Encoder, frames: seq<Frame>, k: nat, cut: nat)
    requires e.nWindow > 0 && cut == k * Window(e) <= |frames|
    ensures Rows(e, frames) == Rows(e, frames[..cut]) + Rows(e, frames[cut..])
    decreases k
  {
    hide Rows, ChunkRows;
    if k == 0 {
      NoRows(e, frames[..cut]);
      assert frames[cut..] == frames;
    } else {
      Previous(k, Window(e));
      var (w, rest) := (Window(e), frames[Window(e)..]);
      RowsSplit(e, rest, k - 1, cut - w);
      assert rest[..cut - w] == frames[..cut][w..] && rest[cut - w..] == frames[cut..];
      assert frames[..cut][..w] == frames[..w];
      FirstWindow(e, frames);
      FirstWindow(e, frames[..cut]);
    }
  }

  lemma NoRows(e: Encoder, frames: seq<Frame>)
    requires e.nWindow > 0 && frames == []
    ensures Rows(e, frames) == []
  {
  }

  lemma Previous(k: nat, w: nat)
    requires k > 0
    ensures k * w == (k - 1) * w + w && (k - 1) * w >= 0
  {
  }

  lemma FirstWindow(e: Encoder, frames: seq<Frame>)
    requires e.nWindow > 0 && |frames| >= Window(e)
    ensures Rows(e, frames) == ChunkRows(e, frames[..Window(e)]) + Rows(e, frames[Window(e)..])
  {
    if |frames| == Window(e) {
      assert frames[..Window(e)] == frames && Rows(e, frames[Window(e)..]) == [];
    }
  }

  lemma {:induction false} AttendedSplit(e: Encoder, rows: seq<Row>, size: nat, k: nat)
    requires size > 0 && k * size <= |rows|
    ensures Attended(e, rows, size) == Attended(e, rows[..k * size], size) + Attended(e, rows[k * size..], size)
    decreases k
  {
    var cut := k * size;
    if k == 0 {
      assert rows[0..] == rows;
    } else {
      Previous(k, size);
      var rest := rows[size..];
      AttendedSplit(e, rest, size, k - 1);
      assert rest[..cut - size] == rows[..cut][size..] && rest[cut - size..] == rows[cut..];
      assert rows[..cut][..size] == rows[..size];
      FirstSegment(e, rows, size);
      FirstSegment(e, rows[..cut], size);
    }
  }

  lemma FirstSegment(e: Encoder, rows: seq<Row>, size: nat)
    requires 0 < size <= |rows|
    ensures Attended(e, rows, size) == e.attend(rows[..size]) + Attended(e, rows[size..], size)
  {
    if |rows| == size {
      assert rows[..size] == rows && Attended(e, rows[size..], size) == [];
    }
  }

  lemma {:induction false} AttendedLength(e: Encoder, rows: seq<Row>, size: nat)
    requires WellShaped(e) && size > 0
    ensures |Attended(e, rows, size)| == |rows|
    decreases |rows|
  {
    if |rows| > size {
      AttendedLength(e, rows[size..], size);
    }
  }

  /** Frames in a full segment. */
  function SegmentFrames(e: Encoder): nat
    requires e.nWindow > 0
  {
    Window(e) * Ratio(e)
  }

  lemma EncodedLength(e: Encoder, frames: seq<Frame>)
    requires WellShaped(e) && Usable(e) && Window(e) == 100
    ensures |Encoded(e, frames)| == FeatExtractOutputLength(|frames|)
  {
    hide Rows, Attended, FeatExtractOutputLength;
    RowsLength(e, frames);
    if e.flash {
      SegmentRowsPositive(e);
      AttendedLength(e, Rows(e, frames), SegmentRows(e));
    }
  }

  /** With flash attention, frames up to a segment boundary and after it can be encoded apart. */
  lemma EncodedSplit(e: Encoder, frames: seq<Frame>, k: nat)
    requires WellShaped(e) && Usable(e) && e.flash && Window(e) == 100 && k * SegmentFrames(e) <= |frames|
    ensures var cut := k * SegmentFrames(e);
            Encoded(e, frames) == Encoded(e, frames[..cut]) + Encoded(e, frames[cut..])
  {
    hide Rows, Attended, FeatExtractOutputLength, Ratio;
    var (n, size, cut) := (k * Ratio(e), SegmentRows(e), k * SegmentFrames(e));
    SegmentRowsPositive(e);
    SegmentBoundary(e, k);
    RowsSplit(e, frames, n, cut);
    RowsLength(e, frames[..cut]);
    var (rows, head) := (Rows(e, frames), Rows(e, frames[..cut]));
    assert |head| == k * size;
    AttendedSplit(e, rows, size, k);
    assert rows[..k * size] == head && rows[k * size..] == Rows(e, frames[cut..]);
    EncodedRows(e, frames);
    EncodedRows(e, frames[..cut]);
    EncodedRows(e, frames[cut..]);
  }

  lemma EncodedRows(e: Encoder, frames: seq<Frame>)
    requires Usable(e) && e.flash && SegmentRows(e) > 0
    ensures Encoded(e, frames) == Attended(e, Rows(e, frames), SegmentRows(e))
  {
    hide Rows;
  }

  /** A boundary lies at whole windows, and its rows are whole segments of rows. */
  lemma SegmentBoundary(e: Encoder, k: nat)
    requires e.nWindow > 0 && Window(e) == 100
    ensures k * SegmentFrames(e) == k * Ratio(e) * Window(e)
    ensures FeatExtractOutputLength(k * SegmentFrames(e)) == k * SegmentRows(e)
  {
    hide FeatExtractOutputLength, Ratio;
    var r := Ratio(e);
    AfterConvolutionsEighth(100);
    assert SegmentRows(e) == 13 * r;
    assert k * (100 * r) == 100 * (k * r) && k * (13 * r) == 13 * (k * r) by {
      Regroup(k, r);
    }
    RowsAt(k * r, 0);
    EighthsNone();
  }

  lemma Regroup(k: nat, r: nat)
    ensures k * (100 * r) == 100 * (k * r) && k * (13 * r) == 13 * (k * r)
  {
  }
}
