/** The scan reconstruction engine of the browser (Imager.model_get_segment):
    a flat buffer of audio samples is cut into scan lines of a fixed width,
    starting at an offset and drifting by an adjustment per line. */
module Scan {

  function Min(a: int, b: int): int { if a <= b then a else b }

  /** Python's int() on a number: truncation toward zero. */
  function Trunc(x: real): (r: int)
    ensures x >= 0.0 ==> r as real <= x < r as real + 1.0
    ensures x < 0.0 ==> r as real - 1.0 < x <= r as real
  {
    if x >= 0.0 then x.Floor else -((-x).Floor)
  }

  /** How Python normalises one bound of a slice of a sequence of length n:
      negative bounds count from the end, and the result is clipped to [0, n]. */
  function PyIndex(i: int, n: nat): (r: nat)
    ensures r <= n
    ensures 0 <= i <= n ==> r == i
    ensures -(n as int) <= i < 0 ==> r == i + n
    ensures i > n ==> r == n
    ensures i < -(n as int) ==> r == 0
  {
    if i < 0 then (if i + n < 0 then 0 else i + n)
    else if i > n then n
    else i
  }

  /** s[lo:hi] with Python's slice semantics (step 1). */
  function Slice(s: seq<int>, lo: int, hi: int): (r: seq<int>)
    ensures 0 <= lo <= hi ==> |r| == Min(hi, |s|) - Min(lo, |s|)
    ensures 0 <= lo && r != [] ==> lo + |r| <= |s| && r == s[lo..lo + |r|]
  {
    var a, b := PyIndex(lo, |s|), PyIndex(hi, |s|);
    if b <= a then [] else s[a..b]
  }

  /** Element-wise sign flip of a row. */
  function Negate(xs: seq<int>): (r: seq<int>)
    ensures |r| == |xs|
    ensures forall k :: 0 <= k < |xs| ==> r[k] == -xs[k]
  {
    seq(|xs|, k requires 0 <= k < |xs| => -xs[k])
  }

  /** A row as read, after the polarity setting is applied. */
  function Polarize(xs: seq<int>, invert: bool): (r: seq<int>)
    ensures |r| == |xs|
    ensures !invert ==> r == xs
    ensures invert ==> forall k :: 0 <= k < |xs| ==> r[k] == -xs[k]
  {
    if invert then Negate(xs) else xs
  }

  /** The placeholder row used when a scan line runs past the samples. */
  function Zeros(n: nat): (r: seq<int>)
    ensures |r| == n
    ensures forall k :: 0 <= k < n ==> r[k] == 0
  {
    seq(n, _ => 0)
  }

  /** Where scan line `scan` starts, before truncation, in exact arithmetic:
      the running cursor starts at `offset` and moves by `width + adjust`
      after every line. */
  function Cursor(offset: int, width: nat, adjust: real, scan: nat): (c: real)
    ensures scan == 0 ==> c == offset as real
    ensures width as real + adjust >= 0.0 ==> c >= offset as real
  {
    offset as real + scan as real * (width as real + adjust)
  }

  /** The running cursor of the source and the closed form agree. */
  lemma CursorStep(offset: int, width: nat, adjust: real, scan: nat)
    ensures Cursor(offset, width, adjust, scan + 1)
         == Cursor(offset, width, adjust, scan) + (width as real + adjust)
  {
  }

  /** The slice read for a line starting at `cursor` is not `width` long. */
  predicate Short(samples: seq<int>, cursor: real, width: nat): (b: bool)
    ensures b ==> width > 0
    ensures Trunc(cursor) >= 0 ==> (b <==> width > 0 && Trunc(cursor) + width > |samples|)
  {
    var start := Trunc(cursor);
    |Slice(samples, start, start + width)| != width
  }

  /** One scan line: the polarised slice at the truncated cursor, or a row
      of zeros when that slice is short. */
  function Row(samples: seq<int>, cursor: real, width: nat, invert: bool): (r: seq<int>)
    ensures |r| == width
  {
    var start := Trunc(cursor);
    if Short(samples, cursor, width) then Zeros(width)
    else Polarize(Slice(samples, start, start + width), invert)
  }

  /** The number of iterations of Python's range(scans). */
  function RowCount(scans: int): (n: nat)
    ensures scans >= 0 ==> n == scans
    ensures scans < 0 ==> n == 0
  {
    if scans < 0 then 0 else scans
  }

  /** The reconstructed image: row i is the line at the closed-form cursor of scan i. */
  function Image(samples: seq<int>, offset: int, width: nat, scans: int, adjust: real, invert: bool)
    : (img: seq<seq<int>>)
    ensures |img| == RowCount(scans)
    ensures forall i :: 0 <= i < |img| ==> |img[i]| == width
  {
    seq(RowCount(scans), i requires 0 <= i < RowCount(scans) =>
      Row(samples, Cursor(offset, width, adjust, i), width, invert))
  }

  /** Some requested scan line could not be filled from the samples. */
  ghost predicate Exceeded(samples: seq<int>, offset: int, width: nat, scans: int, adjust: real): (b: bool)
    ensures b ==> width > 0 && scans > 0
  {
    exists i: nat :: i < scans && Short(samples, Cursor(offset, width, adjust, i), width)
  }

  /** One more iteration of the loop adds one row to the image. */
  lemma ImageStep(samples: seq<int>, offset: int, width: nat, scan: nat, adjust: real, invert: bool)
    ensures Image(samples, offset, width, scan + 1, adjust, invert)
         == Image(samples, offset, width, scan, adjust, invert)
            + [Row(samples, Cursor(offset, width, adjust, scan), width, invert)]
  {
  }

  /** One more iteration of the loop raises the flag exactly when its line is short. */
  lemma ExceededStep(samples: seq<int>, offset: int, width: nat, scan: nat, adjust: real)
    ensures Exceeded(samples, offset, width, scan + 1, adjust)
        <==> Exceeded(samples, offset, width, scan, adjust)
             || Short(samples, Cursor(offset, width, adjust, scan), width)
  {
    if Short(samples, Cursor(offset, width, adjust, scan), width) {
      assert scan < scan + 1;
    }
  }

  /** Imager.model_get_segment: walks a running cursor over the samples,
      one scan line per iteration, and raises a sticky flag on every short line. */
  method GetSegment(samples: seq<int>, offset: int, width: nat, scans: int, adjust: real, invert: bool)
    returns (image: seq<seq<int>>, exceeded: bool)
    ensures image == Image(samples, offset, width, scans, adjust, invert)
    ensures exceeded == Exceeded(samples, offset, width, scans, adjust)
  {
    var cursor := offset as real;
    image, exceeded := [], false;
    for scan := 0 to RowCount(scans)
      invariant cursor == Cursor(offset, width, adjust, scan)
      invariant image == Image(samples, offset, width, scan, adjust, invert)
      invariant exceeded == Exceeded(samples, offset, width, scan, adjust)
    {
      var start := Trunc(cursor);
      var chunk := Polarize(Slice(samples, start, start + width), invert);
      assert Short(samples, cursor, width) <==> |chunk| != width;
      if |chunk| != width {
        chunk := Zeros(width);
        exceeded := true;
      }
      ImageStep(samples, offset, width, scan, adjust, invert);
      ExceededStep(samples, offset, width, scan, adjust);
      image := image + [chunk];
      CursorStep(offset, width, adjust, scan);
      cursor := cursor + (width as real + adjust);
    }
  }

  // Properties of the reconstruction

  /** A line whose cursor is not negative and whose window lies inside the
      buffer is read from the samples at the truncated cursor. */
  lemma FullRowReadsSamples(samples: seq<int>, cursor: real, width: nat, invert: bool)
    requires cursor >= 0.0 && cursor.Floor + width <= |samples|
    ensures !Short(samples, cursor, width)
    ensures forall k :: 0 <= k < width ==>
      Row(samples, cursor, width, invert)[k]
        == (if invert then -samples[cursor.Floor + k] else samples[cursor.Floor + k])
  {
  }

  /** For a cursor that is not negative, a line is short exactly when it has
      a positive width and its window runs past the end of the buffer; a
      short line is all zeros. */
  lemma ShortIffPastEnd(samples: seq<int>, cursor: real, width: nat, invert: bool)
    requires cursor >= 0.0
    ensures Short(samples, cursor, width) <==> width > 0 && cursor.Floor + width > |samples|
    ensures Short(samples, cursor, width) ==>
      forall k :: 0 <= k < width ==> Row(samples, cursor, width, invert)[k] == 0
  {
  }

  /** The cursor stays non-negative when the offset is non-negative and the
      per-line step width + adjust is non-negative. */
  lemma CursorNonNegative(offset: int, width: nat, adjust: real, scan: nat)
    requires offset >= 0 && width as real + adjust >= 0.0
    ensures Cursor(offset, width, adjust, scan) >= 0.0
  {
    assert scan as real * (width as real + adjust) >= 0.0;
  }

  /** With a non-negative step the cursor never moves backward. */
  lemma CursorMonotone(offset: int, width: nat, adjust: real, i: nat, j: nat)
    requires width as real + adjust >= 0.0 && i <= j
    ensures Cursor(offset, width, adjust, i) <= Cursor(offset, width, adjust, j)
  {
  }

  /** With no adjustment scan line i starts exactly i widths after the offset. */
  lemma AdjustZeroRowStart(offset: int, width: nat, scan: nat)
    ensures Trunc(Cursor(offset, width, 0.0, scan)) == offset + scan * width
  {
  }

  /** The polarity setting flips the sign of every sample of every line and
      leaves zero-filled lines zero. */
  lemma InvertNegatesImage(samples: seq<int>, offset: int, width: nat, scans: int, adjust: real)
    ensures var plain := Image(samples, offset, width, scans, adjust, false);
            var inverted := Image(samples, offset, width, scans, adjust, true);
            |inverted| == |plain| &&
            (forall i, k :: 0 <= i < |plain| && 0 <= k < width ==> inverted[i][k] == -plain[i][k]) &&
            (forall i :: 0 <= i < |plain| && Short(samples, Cursor(offset, width, adjust, i), width) ==>
              inverted[i] == plain[i] == Zeros(width))
  {
  }

  /** Inverting twice gives the row back. */
  lemma NegateTwice(xs: seq<int>)
    ensures Negate(Negate(xs)) == xs
  {
  }

  /** With zero width or no scans the flag stays down and no sample is read:
      the image has no rows, or only empty rows. */
  lemma DegenerateGeometry(samples: seq<int>, offset: int, width: nat, scans: int, adjust: real, invert: bool)
    requires width == 0 || scans <= 0
    ensures !Exceeded(samples, offset, width, scans, adjust)
    ensures forall i :: 0 <= i < RowCount(scans) ==> Image(samples, offset, width, scans, adjust, invert)[i] == []
    ensures scans <= 0 ==> Image(samples, offset, width, scans, adjust, invert) == []
  {
  }

  /** With a non-negative step, once a line is short every later line is short
      too, so all lines from the first shortfall onward are zero-filled. */
  lemma {:induction false} ShortfallPersists(samples: seq<int>, offset: int, width: nat, adjust: real, i: nat, j: nat)
    requires offset >= 0 && width as real + adjust >= 0.0 && i <= j
    requires Short(samples, Cursor(offset, width, adjust, i), width)
    ensures Short(samples, Cursor(offset, width, adjust, j), width)
  {
    CursorNonNegative(offset, width, adjust, i);
    CursorNonNegative(offset, width, adjust, j);
    CursorMonotone(offset, width, adjust, i, j);
    ShortIffPastEnd(samples, Cursor(offset, width, adjust, i), width, false);
    ShortIffPastEnd(samples, Cursor(offset, width, adjust, j), width, false);
  }

  /** With an adjustment above -1, a buffer of at least
      offset + scans * (width + adjust) samples fills every line: each line
      ends before the next cursor minus the adjustment, so less than one
      sample past the bound, and line ends are whole numbers. */
  lemma {:induction false} EnoughSamplesNoShortfall(samples: seq<int>, offset: int, width: nat, scans: nat, adjust: real)
    requires offset >= 0 && adjust > -1.0
    requires |samples| as real >= Cursor(offset, width, adjust, scans)
    ensures !Exceeded(samples, offset, width, scans, adjust)
  {
    forall i: nat | i < scans
      ensures !Short(samples, Cursor(offset, width, adjust, i), width)
    {
      var c := Cursor(offset, width, adjust, i);
      if width > 0 {
        CursorNonNegative(offset, width, adjust, i);
        CursorStep(offset, width, adjust, i);
        CursorMonotone(offset, width, adjust, i + 1, scans);
        assert c.Floor as real + width as real < |samples| as real + 1.0;
        ShortIffPastEnd(samples, c, width, false);
      }
    }
  }

  /** The bound -1 is tight: four samples,
      width 3, two scans and adjust -1 meet offset + scans * (width + adjust) <= 4,
      yet the second line, samples[2:5], is short. */
  lemma NegativeDriftShortfall()
    ensures 4.0 >= Cursor(0, 3, -1.0, 2)
    ensures Exceeded([0, 1, 2, 3], 0, 3, 2, -1.0)
  {
    assert Short([0, 1, 2, 3], Cursor(0, 3, -1.0, 1), 3);
  }

  /** A line starting at a negative index reads from the end of the buffer,
      as Python's slice does: it is short exactly when the window starts
      before the buffer or reaches index 0, and otherwise (for a positive
      width) reads `width`
      samples counted from the end. */
  lemma NegativeStartReadsFromEnd(samples: seq<int>, cursor: real, width: nat, invert: bool)
    requires Trunc(cursor) < 0
    ensures var start := Trunc(cursor);
      Short(samples, cursor, width) <==>
        width > 0 && (start < -|samples| || start + width >= 0)
    ensures var start := Trunc(cursor);
      width > 0 && !Short(samples, cursor, width) ==>
        Row(samples, cursor, width, invert)
          == Polarize(samples[start + |samples|..start + |samples| + width], invert)
  {
  }

  /** Lines are judged one by one: with a negative adjustment a line after a
      short one can be back inside the buffer and is then read normally. */
  lemma ShortRowCanRecover()
    ensures Image([0, 1, 2, 3, 4, 5, 6, 7, 8, 9], 8, 3, 2, -5.0, false) == [[0, 0, 0], [6, 7, 8]]
    ensures Exceeded([0, 1, 2, 3, 4, 5, 6, 7, 8, 9], 8, 3, 2, -5.0)
  {
    var s := [0, 1, 2, 3, 4, 5, 6, 7, 8, 9];
    assert Cursor(8, 3, -5.0, 1) == 6.0;
    assert Trunc(6.0) == 6;
    assert Slice(s, 6, 9) == [6, 7, 8];
    assert Short(s, Cursor(8, 3, -5.0, 0), 3);
    assert Row(s, Cursor(8, 3, -5.0, 0), 3, false) == Zeros(3) == [0, 0, 0];
    assert Row(s, Cursor(8, 3, -5.0, 1), 3, false) == [6, 7, 8];
  }

  /** A negative offset (left behind when an empty buffer is replaced by a
      real one) zero-fills the first line, samples[-1:2] being empty, while
      the second line, samples[2:5], is read normally. */
  lemma NegativeOffsetRecovers()
    ensures Image([0, 1, 2, 3, 4, 5, 6, 7, 8, 9], -1, 3, 2, 0.0, false) == [[0, 0, 0], [2, 3, 4]]
    ensures Exceeded([0, 1, 2, 3, 4, 5, 6, 7, 8, 9], -1, 3, 2, 0.0)
  {
    var s := [0, 1, 2, 3, 4, 5, 6, 7, 8, 9];
    assert Trunc(Cursor(-1, 3, 0.0, 0)) == -1;
    assert Slice(s, -1, 2) == [];
    assert Short(s, Cursor(-1, 3, 0.0, 0), 3);
    assert Row(s, Cursor(-1, 3, 0.0, 0), 3, false) == Zeros(3) == [0, 0, 0];
    assert Trunc(Cursor(-1, 3, 0.0, 1)) == 2;
    assert Slice(s, 2, 5) == [2, 3, 4];
    assert Row(s, Cursor(-1, 3, 0.0, 1), 3, false) == [2, 3, 4];
  }

  /** Ten samples 0..9 cut into three lines of width 3. */
  lemma ExampleThreeScans()
    ensures Image([0, 1, 2, 3, 4, 5, 6, 7, 8, 9], 0, 3, 3, 0.0, false) == [[0, 1, 2], [3, 4, 5], [6, 7, 8]]
    ensures !Exceeded([0, 1, 2, 3, 4, 5, 6, 7, 8, 9], 0, 3, 3, 0.0)
  {
    var s := [0, 1, 2, 3, 4, 5, 6, 7, 8, 9];
    EnoughSamplesNoShortfall(s, 0, 3, 3, 0.0);
    assert Slice(s, 0, 3) == [0, 1, 2];
    assert Slice(s, 3, 6) == [3, 4, 5];
    assert Slice(s, 6, 9) == [6, 7, 8];
    assert Trunc(Cursor(0, 3, 0.0, 1)) == 3;
    assert Trunc(Cursor(0, 3, 0.0, 2)) == 6;
  }

  /** A fourth line would need samples[9:12]: the line is zero-filled and the flag is raised. */
  lemma ExampleFourScans()
    ensures Image([0, 1, 2, 3, 4, 5, 6, 7, 8, 9], 0, 3, 4, 0.0, false)[3] == [0, 0, 0]
    ensures Exceeded([0, 1, 2, 3, 4, 5, 6, 7, 8, 9], 0, 3, 4, 0.0)
  {
    var s := [0, 1, 2, 3, 4, 5, 6, 7, 8, 9];
    assert Trunc(Cursor(0, 3, 0.0, 3)) == 9;
    assert Short(s, Cursor(0, 3, 0.0, 3), 3);
  }

  /** With adjust 1 the lines start at 0, 4 and 8, and the third is short. */
  lemma ExampleDriftOne()
    ensures Image([0, 1, 2, 3, 4, 5, 6, 7, 8, 9], 0, 3, 3, 1.0, false) == [[0, 1, 2], [4, 5, 6], [0, 0, 0]]
    ensures Exceeded([0, 1, 2, 3, 4, 5, 6, 7, 8, 9], 0, 3, 3, 1.0)
  {
    var s := [0, 1, 2, 3, 4, 5, 6, 7, 8, 9];
    assert Trunc(Cursor(0, 3, 1.0, 1)) == 4;
    assert Trunc(Cursor(0, 3, 1.0, 2)) == 8;
    assert Slice(s, 0, 3) == [0, 1, 2];
    assert Slice(s, 4, 7) == [4, 5, 6];
    assert Short(s, Cursor(0, 3, 1.0, 2), 3);
    assert Row(s, Cursor(0, 3, 1.0, 1), 3, false) == [4, 5, 6];
    assert Row(s, Cursor(0, 3, 1.0, 2), 3, false) == Zeros(3) == [0, 0, 0];
  }
}
