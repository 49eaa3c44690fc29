# Voyager audio image browser: scan reconstruction and geometry controls

`voyagerimb.py` is a browser for the images of the Voyager Golden Record.
The images are stored as audio. The audio holds one long waveform, and
consecutive runs of samples are the horizontal scan lines of a picture.
This project models the part of the browser that turns the samples into a
picture, and the controls that set up its geometry.

- **The scan reconstruction engine** (`Imager.model_get_segment`) is module
  `Scan`. A running cursor starts at the offset and moves by
  `scan_line_width + adjust` after every line. Each line is the slice
  `samples[int(cursor) : int(cursor) + width]`, negated when the signal is
  inverted. A line whose slice is short becomes a row of zeros and raises
  the sticky `offset_exceeded` flag.
  - `Scan.GetSegment` is the loop, kept as a loop over a running cursor.
  - `Scan.Image` and `Scan.Exceeded` give the reference result: row `i` is
    read at the closed-form cursor `offset + i * (width + adjust)`
    (`Scan.Cursor`).
  - The cursor is an exact `real`. `int()` is truncation toward zero
    (`Scan.Trunc`), and slicing follows Python's rules, negative bounds
    included (`Scan.PyIndex`, `Scan.Slice`). So the engine needs no
    precondition on the cursor.
- **The geometry bookkeeping** is module `Geometry`. It holds the offset step
  table, the two offset clamps (the step clamp and the entry clamp, which
  differ for an empty buffer), the clamp of the width and scan-count
  entries, and the cap on the plotted scan line.
- **The browser state and its controls** are class
  `Browser.VoyagerBrowser`. It has the browser's fields (`offset`,
  `scanLineWidth`, `numberOfScans`, `adjust`, `plotScanline`, the two flags,
  `offsetExceeded`). It also holds the controls' contents. Each entry widget
  is represented by what its text parses to, an `Option` that is `None` when
  the text is not a number.
  - Writing an entry from program code fires that entry's Tk write trace
    once.
  - A write made while a trace is running fires nothing, because Tcl turns
    off a variable's traces while one of them runs.
  - The scan-count entry has two traces. Tcl runs the most recently
    registered one first, so the slider's range update runs before the
    scan-count sync.
  - Each method states the whole new state as an update of the snapshot
    `State()`. The functions `OffsetWritten`, `WidthWritten` and
    `ScansWritten` give the state after an entry write and its trace.

The code is followed where its behaviour could be misread:

- **Each line is judged on its own.** Zero-filling does not carry over from
  the first short line to the lines after it. With a negative step, a later
  line can be back inside the buffer and is then read normally
  (`Scan.ShortRowCanRecover`). With a negative offset the first line reads
  an empty slice and is zero-filled, while later lines can be read normally
  (`Scan.NegativeOffsetRecovers`). Such an offset can be held with data
  loaded: an offset step on an empty buffer leaves -1, and loading a file
  does not re-clamp it. "Every line from the first shortfall on is zero"
  holds when `offset >= 0` and the step `width + adjust` is non-negative
  (`Scan.ShortfallPersists`).
- **"The buffer holds `offset + scans * (width + adjust)` samples" does not
  mean that no line is short.** It means that only when `offset >= 0` and
  `adjust > -1` (`Scan.EnoughSamplesNoShortfall`), which covers the small
  steps of the adjustment control. `Scan.NegativeDriftShortfall` shows it
  failing at `adjust = -1`, so the bound -1 is tight.
- **An offset step on an empty buffer does not always end at -1.** The trace
  runs again on each entry write, so the offset ends at -1 or at 0
  depending on the path (`Browser.VoyagerBrowser.OffsetModify`).

## Model

| member | source | states |
|---|---|---|
| `Scan.GetSegment` | voyagerimb.py:203-224 | The loop over a running cursor returns exactly `Image` (row count `max(scans, 0)`, row `i` read at the closed-form cursor `offset + i*(width+adjust)`), and its flag is true exactly when some requested line is short |
| `Scan.Trunc` | voyagerimb.py:212 | `int()` of the cursor truncates toward zero: within 1 below a non-negative value, within 1 above a negative one |
| `Scan.PyIndex` | voyagerimb.py:212 | A slice bound is clipped to `[0, n]`; a negative bound counts from the end |
| `Scan.Slice` | voyagerimb.py:212 | For `0 <= lo <= hi` the slice has length `min(hi,n) - min(lo,n)` and is the contiguous run of samples starting at `lo` |
| `Scan.Cursor` | voyagerimb.py:204-217 | The first line starts at `offset`; with a non-negative step no line starts before it (`Scan.CursorStep` gives the step) |
| `Scan.Negate` | voyagerimb.py:210-211 | Same length, every sample's sign flipped |
| `Scan.Polarize` | voyagerimb.py:210-211 | Same length; unchanged without inversion, every sample negated with it |
| `Scan.Zeros` | voyagerimb.py:214 | The placeholder line: `n` zeros |
| `Scan.RowCount` | voyagerimb.py:209 | The number of iterations of `range(scans)`: `scans`, or 0 when it is negative |
| `Scan.Short` | voyagerimb.py:212-213 | Never short for width 0; for a non-negative start, short exactly when the window passes the end of the samples |
| `Scan.Exceeded` | voyagerimb.py:209-222 | The flag can be raised only with a positive width and at least one scan (`Scan.GetSegment` ties it to the loop's sticky flag) |
| `Scan.Row` | voyagerimb.py:210-216 | Every line has exactly `width` entries, short or not |
| `Scan.Image` | voyagerimb.py:206-216 | The image has `max(scans, 0)` rows, each of length `width` |
| `Scan.CursorStep` | voyagerimb.py:217 | Adding `width + adjust` to the running cursor gives the closed-form cursor of the next line |
| `Scan.CursorNonNegative` | voyagerimb.py:204-217 | With `offset >= 0` and `width + adjust >= 0` no cursor is negative |
| `Scan.CursorMonotone` | voyagerimb.py:217 | With a non-negative step the cursor never moves backward |
| `Scan.FullRowReadsSamples` | voyagerimb.py:209-217 | A line whose window `[floor(c), floor(c)+width)` lies in the buffer is not short, and entry `k` is `samples[floor(c)+k]` (negated when inverting) |
| `Scan.ShortIffPastEnd` | voyagerimb.py:212-215 | For a non-negative cursor a line is short exactly when `width > 0` and `floor(c) + width > len`, and a short line is all zeros |
| `Scan.AdjustZeroRowStart` | voyagerimb.py:204-217 | With `adjust = 0` line `i` starts at `offset + i*width` |
| `Scan.InvertNegatesImage` | voyagerimb.py:210-214 | With inversion every entry of every line is the negation of the entry without it; zero-filled lines are zero both ways |
| `Scan.NegateTwice` | voyagerimb.py:210-211 | Negating a line twice gives it back |
| `Scan.DegenerateGeometry` | voyagerimb.py:209-215 | With width 0 or no scans the flag is false and no sample is read: no rows, or only empty rows |
| `Scan.ShortfallPersists` | voyagerimb.py:209-217 | With `offset >= 0` and a non-negative step, a short line is followed only by short lines |
| `Scan.EnoughSamplesNoShortfall` | voyagerimb.py:209-222 | With `offset >= 0` and `adjust > -1`, a buffer of at least `offset + scans*(width+adjust)` samples leaves the flag false |
| `Scan.NegativeStartReadsFromEnd` | voyagerimb.py:212-215 | A line at a negative start `s` is short exactly when `width > 0` and `s < -len` or `s + width >= 0`; otherwise it reads `samples[s+len .. s+len+width]`, polarised |
| `Scan.NegativeDriftShortfall` | voyagerimb.py:209-222 | Four samples, width 3, two scans, adjust -1: the sample-count bound holds, yet the flag is raised, so `adjust > -1` cannot be relaxed |
| `Scan.NegativeOffsetRecovers` | voyagerimb.py:209-217 | Samples 0..9, offset -1, width 3, adjust 0: line 0 reads the empty `samples[-1:2]` and is zeros, line 1 reads `[2,3,4]`, and the flag is raised |
| `Scan.ShortRowCanRecover` | voyagerimb.py:209-217 | Samples 0..9, offset 8, width 3, adjust -5: line 0 is zeros, line 1 reads `[6,7,8]`, and the flag is raised |
| `Scan.ExampleThreeScans` | voyagerimb.py:203-224 | Samples 0..9, width 3, three scans give `[0,1,2],[3,4,5],[6,7,8]` with the flag false |
| `Scan.ExampleFourScans` | voyagerimb.py:203-224 | The same with four scans: the fourth line is `[0,0,0]` and the flag is true |
| `Scan.ExampleDriftOne` | voyagerimb.py:203-224 | With adjust 1 the lines are read at 0, 4, 8: `[0,1,2],[4,5,6],[0,0,0]`, flag true |
| `Geometry.Delta` | voyagerimb.py:315-324 | A fixed step is between 1 and 1000; a width-derived step is non-negative for a non-negative geometry and is 0 for width 0 |
| `Geometry.StepTarget` | voyagerimb.py:314-335 | When the entry differs from the offset the entry's value is taken; otherwise a non-zero step moves forward exactly for "+" |
| `Geometry.ClampSequential` | voyagerimb.py:337-343 | For a non-empty buffer the stepped offset lies in `[0, len-1]` and in-range values are kept and values above `len-1` go to `len-1`; for an empty buffer it is `len-1 = -1` |
| `Geometry.ClampEntry` | voyagerimb.py:363-370 | A typed offset maps negatives to 0, keeps in-range values, sends values above `len-1` to `len-1`, and lands in `[0, len-1]` for a non-empty buffer |
| `Geometry.ClampNonNegative` | voyagerimb.py:435-437 | Width and scan-count entries: a negative value becomes 0, a non-negative one is kept |
| `Geometry.CapPlotLine` | voyagerimb.py:545-546 | After the range update the plotted line is at most the new maximum, and unchanged when already at most that |
| `Geometry.CapPlotLineToLastRow` | voyagerimb.py:545-547 | The corrected cap keeps the plotted line a row index of an image with `scans > 0` rows: in-range lines are kept, a line past the end goes to the last row and a negative one to row 0 |
| `Geometry.ClampEntryIsNearest` | voyagerimb.py:363-370 | The typed-offset clamp picks the valid offset nearest to the typed value |
| `Geometry.ClampsAgree` | voyagerimb.py:337-370 | For a non-empty buffer the step clamp and the entry clamp coincide |
| `Geometry.ClampsDisagreeOnEmptyBuffer` | voyagerimb.py:337-370 | For an empty buffer they differ: -5 becomes 0 through the entry, -1 through a step |
| `Geometry.ClampEntryIdempotent` | voyagerimb.py:363-370 | Re-clamping a clamped offset changes nothing |
| `Geometry.OffsetClampExamples` | voyagerimb.py:337-370 | Offset -5 clamps to 0 and offset `len+100` to `len-1` |
| `Geometry.StepThenBack` | voyagerimb.py:314-343 | Inside the buffer a "+" step followed by a "-" step of the same delta returns to the start |
| `Geometry.StepDirection` | voyagerimb.py:314-343 | A "+" step never lowers an in-range offset and a "-" step never raises it |
| `Geometry.ClampNonNegativeIdempotent` | voyagerimb.py:469-473 | The width and scan-count clamp is idempotent |
| `Browser.PlotNotice` | voyagerimb.py:238-258 | The outcome of a redraw: the end-of-data error when the flag is raised, else the plotted row `image[line]` (negative lines counted from the end), else the exception raised by the drawing at lines 244-252 (`imshow` of an empty image with 0 scans, or the row lookup of line 252) |
| `Browser.TraceRow` | voyagerimb.py:252 | Python list indexing of the image: defined exactly for `-rows <= line < rows`, returning `image[line]` for a non-negative line and `image[line + rows]` for a negative one |
| `Browser.SignalTrace` | voyagerimb.py:252 | The signal trace under the corrected cap: always a row of the image, the requested one when in range, the last one past the end |
| `Browser.OffsetWritten` | voyagerimb.py:356-370 | After an offset write with data loaded the entry shows the offset, and for a non-empty buffer the offset is a valid index |
| `Browser.WidthWritten` | voyagerimb.py:430-439 | After a width write with data loaded the entry shows the width, which is non-negative and equals the written value when that is non-negative and 0 when it is negative; without data the width is unchanged |
| `Browser.ScansWritten` | voyagerimb.py:464-473 | After a scan-count write the plotted line is at most the written value (unchanged if already so), the slider ends there, and with data the count is the written value, or 0 for a negative one, and is shown by the entry; without data the count is unchanged |
| `Browser.VoyagerBrowser.constructor` | voyagerimb.py:611-620 | The defaults: no data, offset 0, width 3197, 512 scans, adjust 0, plotted line 0, flags false; entries show 0, 3197, 512, 0; step 1000 |
| `Browser.VoyagerBrowser.LoadAudioData` | voyagerimb.py:605-609 | Loading replaces the sample buffer and nothing else; the offset is not re-clamped |
| `Browser.VoyagerBrowser.GetSegment` | voyagerimb.py:203-224 | Returns the reference image of the current geometry and sets `offsetExceeded` to whether it ran past the samples, changing nothing else |
| `Browser.VoyagerBrowser.Replot` | voyagerimb.py:226-260 | No data: the no-data notice and no change. Otherwise it sets the flag, and the notice is the end-of-data error, the plotted row, or the exception raised by the drawing at lines 244-252 |
| `Browser.VoyagerBrowser.SetInvertSignal` | voyagerimb.py:92-94 | Sets the polarity and redraws |
| `Browser.VoyagerBrowser.SetFlipHorizontal` | voyagerimb.py:96-98 | Sets the mirroring and redraws; the samples read do not depend on it |
| `Browser.VoyagerBrowser.OffsetSyncWithEntry` | voyagerimb.py:356-372 | Without data or with an unparsable entry nothing changes; otherwise the offset becomes the clamped entry and the entry shows it |
| `Browser.VoyagerBrowser.SetOffsetEntry` | voyagerimb.py:383-385 | Writing the offset entry fires its trace once |
| `Browser.VoyagerBrowser.OffsetModify` | voyagerimb.py:306-348 | No data: the no-data notice. Unparsable entry: no change. Otherwise, for a non-empty buffer, the offset is the step target clamped into `[0, len-1]`; for an empty one it is 0 or -1 by path. The entry shows the offset, and the redraw's flag and notice follow |
| `Browser.VoyagerBrowser.StepOrTakeEntry` | voyagerimb.py:314-335 | When the entry still shows the offset: move by the interval's delta in the sign's direction and write the entry (its trace clamps the value into the buffer). Otherwise: take the entry's value and leave the entry unchanged. Nothing else changes |
| `Browser.VoyagerBrowser.ClampOffset` | voyagerimb.py:337-343 | The two clamps with their entry writes: the step clamp for a non-empty buffer, and -1 or 0 for an empty one |
| `Browser.VoyagerBrowser.ScanLineWidthSyncWithEntry` | voyagerimb.py:430-439 | Without data or with an unparsable entry nothing changes; otherwise the width becomes the entry with negatives clamped to 0 |
| `Browser.VoyagerBrowser.SetScanLineWidthEntry` | voyagerimb.py:446-447 | Writing the width entry fires its trace |
| `Browser.VoyagerBrowser.ScanLineWidthIncrease` | voyagerimb.py:422-424 | Writes entry + 1 and fires the trace; an unparsable entry raises and nothing changes |
| `Browser.VoyagerBrowser.ScanLineWidthDecrease` | voyagerimb.py:426-428 | Writes entry - 1 and fires the trace; an unparsable entry raises and nothing changes |
| `Browser.VoyagerBrowser.NumberOfScansSyncWithEntry` | voyagerimb.py:464-473 | Without data or with an unparsable entry nothing changes; otherwise the count becomes the entry with negatives clamped to 0 |
| `Browser.VoyagerBrowser.SlideRangeUpdate` | voyagerimb.py:543-547 | Caps the plotted line at the entry's value and moves the slider's end there; an unparsable entry changes nothing |
| `Browser.VoyagerBrowser.SetNumberOfScansEntry` | voyagerimb.py:567-569 | Writing the scan-count entry fires the slider's trace and then the count's |
| `Browser.VoyagerBrowser.NumberOfScansIncrease` | voyagerimb.py:456-458 | Writes entry + 1 and fires both traces; an unparsable entry changes nothing |
| `Browser.VoyagerBrowser.NumberOfScansDecrease` | voyagerimb.py:460-462 | Writes entry - 1 and fires both traces; an unparsable entry changes nothing |
| `Browser.VoyagerBrowser.AdjustSyncWithEntry` | voyagerimb.py:503-508 | Without data or with an unparsable entry nothing changes; otherwise the adjustment becomes the entry's value |
| `Browser.VoyagerBrowser.SetAdjustEntry` | voyagerimb.py:515-518 | Writing the adjust entry fires its trace |
| `Browser.VoyagerBrowser.ScanlinePlotSyncWithSlider` | voyagerimb.py:540-541 | The slider's value becomes the plotted line |
| `Browser.OffsetWriteBackIsFixedPoint` | voyagerimb.py:363-370 | For a non-empty buffer the offset trace's own write-back would change nothing if it fired again |
| `Browser.WidthWriteBackIsFixedPoint` | voyagerimb.py:435-439 | The same for the width trace |
| `Browser.PlotLineCapAdmitsMissingRow` | voyagerimb.py:543-547 | A plotted line at or past the row count is capped to the row count, which is not a row of the image, so the trace lookup fails |
| `Browser.CorrectedCapSelectsRow` | voyagerimb.py:545-547 | Under the corrected cap the trace lookup always finds a row of a non-empty image |

## Left out

- Tk widgets, frames, menus, buttons, the busy cursor and message boxes (voyagerimb.py:50-56, 76-195, 378-411). A notice is returned as a value instead of being shown.
- matplotlib drawing in `view_plot_image` and `view_init` (voyagerimb.py:234-295). This includes the axis limits swapped by `flip_horizontal`, which only sets the direction of the axes.
- WAV decoding with `scipy.io.wavfile.read` (voyagerimb.py:608) is a foreign I/O call. `LoadAudioData` takes the decoded samples. The sample rate is not modelled, because nothing in the core reads it.
- `FileMenu.openfile`, the file dialog and the bad-file handling (voyagerimb.py:77-90) are I/O.
- Image export (voyagerimb.py:109-144) is left out: rescaling to `uint8` (which divides by zero when min equals max), PIL resizing and saving, and the I/O error messages.
- `about()` (voyagerimb.py:146-159) launches a subprocess.
- Floating point: `adjust` and the cursor are exact reals. The rounding of repeated float additions is not modelled.
- The `AdjustControl` ±0.01 step with `"%2.3f"` formatting (voyagerimb.py:494-501) is left out because it is float formatting.
- Python's `int()`/`float()` parsing of entry text (voyagerimb.py:59-73) is a library call. It is represented by its result, an `Option`.
- Channels: the samples are a flat sequence, so the model assumes mono audio. For a multi-channel WAV the decoder returns one row per frame, and line 212 then slices frames, not samples.
- Sample format: the model covers signed integer PCM samples (as unbounded integers) and a finite adjustment. Not modelled:
  - 8-bit WAVs, which the decoder returns as unsigned `uint8`, so that `-_m` at voyagerimb.py:210 wraps to `256 - m` and inversion is not negation there (`Scan.InvertNegatesImage` does not describe them);
  - 32-bit float WAVs, whose non-integer samples a `seq<int>` cannot hold;
  - an adjustment of "nan" or "inf", which `float()` at line 70 accepts and with which `int(offset)` at line 212 raises from the second line on; `Option<real>` cannot hold it;
  - the wrap-around of numpy's negation of the most negative 16-bit sample, and the float type of numpy's zero rows.
- `Scan.GetSegment` takes a non-negative width. A negative width with at least one scan makes `np.zeros` raise. The browser never holds one: `VoyagerBrowser.Valid()` keeps the width non-negative.
- Tk's own behaviour of the slider is left out. This covers its `+`/`-` buttons (voyagerimb.py:534-538) and the clamping of its value when its range changes; `sliderTo` only records the configured upper end. When that re-clamp moves the slider's value, Tk runs the slider's command (voyagerimb.py:541, 559) and `plot_scanline` follows it; the model keeps the capped line instead. For example, with the slider at 5 and a scan-count entry of -3, the source ends with line 0, while the model keeps -3 (and after a later count of 5 plots `image[2]`, not row 0).
- `Imager.first` (voyagerimb.py:199-232) is left out. It is used up by the redraw made while the window is built, so every later redraw without data shows the no-data notice.
- `model_increment_offset`/`model_decrement_offset` (voyagerimb.py:350-354) are `OffsetModify(Plus)` and `OffsetModify(Minus)`.
- `ControlWidgets` and the REPLOT button (voyagerimb.py:577-600) are wiring around `Replot`.
- An exception raised inside a Tk callback is modelled as the callback returning without further change. Examples are the `TypeError` of `None + 1` or `int > None`, and the `IndexError` of line 252.
- Geometry.Delta: its contract bounds the step (fixed steps in 1..1000, derived steps non-negative and zero for width 0) instead of listing the table. The exact table is its body.

## Findings

| source | as written | input that shows it | evidently intended | confidence | as-written member | corrected member |
|---|---|---|---|---|---|---|
| voyagerimb.py:543-547 | The slider range is `0..number_of_scans`, and the range update caps `plot_scanline` at `number_of_scans`, one past the last row. `image_data[plot_scanline]` at line 252 then raises `IndexError` | 3 scans, slider moved to its end (3): the redraw indexes row 3 of a 3-row image | Keep the plotted line within `[0, number_of_scans - 1]` | not executed | `Browser.PlotLineCapAdmitsMissingRow` | `Geometry.CapPlotLineToLastRow` |
