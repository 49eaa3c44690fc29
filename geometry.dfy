/** The geometry bookkeeping of the browser's controls: the offset step
    table, the clamps applied to the offset, width and scan-count entries,
    and the cap applied to the plotted scan line. */
module Geometry {

  /** The direction of an offset step ("+" or anything else). */
  datatype Sign = Plus | Minus

  /** The offset step choices of the radio buttons. */
  datatype Interval =
    | One | Ten | Hundred | Thousand
    | ScansTimesWidth | HundredWidths | TenWidths | OneWidth
  {
    /** A fixed number of samples rather than a multiple of the scan-line width. */
    predicate Fixed()
    {
      One? || Ten? || Hundred? || Thousand?
    }
  }

  /** The offset step for the selected interval: a fixed count of samples, or
      a multiple of the scan-line width. */
  function Delta(interval: Interval, scans: int, width: int): (d: int)
    ensures interval.Fixed() ==> 1 <= d <= 1000
    ensures scans >= 0 && width >= 0 ==> d >= 0
    ensures !interval.Fixed() && width == 0 ==> d == 0
  {
    match interval
    case One => 1
    case Ten => 10
    case Hundred => 100
    case Thousand => 1000
    case ScansTimesWidth => scans * width
    case HundredWidths => 100 * width
    case TenWidths => 10 * width
    case OneWidth => width
  }

  /** The offset a step asks for before clamping: a step by delta when the
      entry still shows the current offset, otherwise the entry's value. */
  function StepTarget(entry: int, current: int, sign: Sign, delta: int): (t: int)
    ensures entry != current ==> t == entry
    ensures entry == current && delta >= 0 ==> (sign == Plus <==> t >= current) || delta == 0
  {
    if entry != current then entry
    else if sign == Plus then current + delta
    else current - delta
  }

  /** The two clamps of an offset step: first raise negatives to 0, then
      lower values above maxsize to maxsize. */
  function ClampSequential(x: int, maxsize: int): (r: int)
    ensures maxsize >= 0 ==> 0 <= r <= maxsize
    ensures 0 <= x <= maxsize ==> r == x
    ensures maxsize < 0 ==> r == maxsize
    ensures maxsize >= 0 && x > maxsize ==> r == maxsize
  {
    var low := if x < 0 then 0 else x;
    if low > maxsize then maxsize else low
  }

  /** The clamp of a typed offset: 0 if negative, else maxsize if above it,
      else the value itself. */
  function ClampEntry(x: int, maxsize: int): (r: int)
    ensures maxsize >= 0 ==> 0 <= r <= maxsize
    ensures 0 <= x <= maxsize ==> r == x
    ensures x < 0 ==> r == 0
    ensures maxsize >= 0 && x > maxsize ==> r == maxsize
  {
    if x < 0 then 0
    else if x > maxsize then maxsize
    else x
  }

  /** The clamp of the width and scan-count entries: negatives become 0. */
  function ClampNonNegative(x: int): (r: nat)
    ensures r >= x
    ensures x >= 0 ==> r == x
    ensures x < 0 ==> r == 0
  {
    if x < 0 then 0 else x
  }

  /** The cap applied to the plotted scan line when the scan count changes. */
  function CapPlotLine(line: int, newmax: int): (r: int)
    ensures r <= newmax && r <= line
    ensures r == line || r == newmax
  {
    if line > newmax then newmax else line
  }

  /** The clamp that keeps the plotted line a row index of an image with
      `scans` rows: the last row for a line past the end, the first for a
      negative one. */
  function CapPlotLineToLastRow(line: int, scans: int): (r: int)
    ensures scans > 0 ==> 0 <= r < scans
    ensures 0 <= line < scans ==> r == line
    ensures scans > 0 && line >= scans ==> r == scans - 1
    ensures scans > 0 && line < 0 ==> r == 0
  {
    if line > scans - 1 then scans - 1
    else if line < 0 then 0
    else line
  }

  // Properties of the clamps

  /** For a non-empty buffer the entry clamp picks the valid offset nearest
      to the typed value. */
  lemma ClampEntryIsNearest(x: int, maxsize: int, y: int)
    requires maxsize >= 0 && 0 <= y <= maxsize
    ensures var r := ClampEntry(x, maxsize);
            (if r >= x then r - x else x - r) <= (if y >= x then y - x else x - y)
  {
  }

  /** For a non-empty buffer both clamps agree. */
  lemma ClampsAgree(x: int, maxsize: int)
    requires maxsize >= 0
    ensures ClampEntry(x, maxsize) == ClampSequential(x, maxsize)
  {
  }

  /** For an empty buffer (maxsize -1) they do not: the entry clamp maps a
      negative value to 0, the step clamp to -1. */
  lemma ClampsDisagreeOnEmptyBuffer()
    ensures ClampEntry(-5, -1) == 0
    ensures ClampSequential(-5, -1) == -1
  {
  }

  /** Clamping a clamped value again changes nothing. */
  lemma ClampEntryIdempotent(x: int, maxsize: int)
    requires maxsize >= 0
    ensures ClampEntry(ClampEntry(x, maxsize), maxsize) == ClampEntry(x, maxsize)
  {
  }

  /** Offset -5 clamps to 0, and an offset 100 past the end of a buffer of
      n samples clamps to n - 1. */
  lemma OffsetClampExamples(n: nat)
    requires n > 0
    ensures ClampEntry(-5, n - 1) == 0 && ClampSequential(-5, n - 1) == 0
    ensures ClampEntry(n + 100, n - 1) == n - 1 && ClampSequential(n + 100, n - 1) == n - 1
  {
  }

  /** Inside the buffer, stepping forward and then back by the same delta
      returns to the starting offset. */
  lemma StepThenBack(current: int, delta: nat, maxsize: int)
    requires 0 <= current && current + delta <= maxsize
    ensures var there := ClampSequential(StepTarget(current, current, Plus, delta), maxsize);
            there == current + delta &&
            ClampSequential(StepTarget(there, there, Minus, delta), maxsize) == current
  {
  }

  /** A forward step never lowers the offset and a backward step never raises
      it, whatever the clamps do. */
  lemma StepDirection(current: int, delta: nat, maxsize: int)
    requires 0 <= current <= maxsize
    ensures ClampSequential(StepTarget(current, current, Plus, delta), maxsize) >= current
    ensures ClampSequential(StepTarget(current, current, Minus, delta), maxsize) <= current
  {
  }

  /** The width and scan-count clamp is idempotent. */
  lemma ClampNonNegativeIdempotent(x: int)
    ensures ClampNonNegative(ClampNonNegative(x)) == ClampNonNegative(x)
  {
  }
}
