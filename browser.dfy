/** The browser's state and its controls (VoyagerBrowser and the control
    objects that write into it). Each entry widget is modelled by what its
    text parses to: None when the text is not a number. Writing an entry
    from program code fires its write trace once; writes made while a
    trace runs fire nothing, as Tcl disables the traces of a variable
    while one of them runs. */
module Browser {
  import opened Wrappers
  import Scan
  import opened Geometry

  /** The defaults of VoyagerBrowser.model_init. */
  const DefaultScanLineWidth: int := 3197
  const DefaultNumberOfScans: int := 512

  /** What a redraw shows the user. */
  datatype Notice =
    | NoNotice                 // nothing shown (the action returned early)
    | NoDataError              // "No data in memory to plot yet!!"
    | OffsetExceededError      // "Cannot plot. End of data!!"
    | Plotted(trace: seq<int>) // image drawn, with this row as the signal trace
    | TraceIndexError          // the plotted row index is not a row of the image

  /** Python list indexing image[line]: negative indices count from the end,
      None stands for the IndexError raised outside. */
  function TraceRow(image: seq<seq<int>>, line: int): (r: Option<seq<int>>)
    ensures r.Some? <==> -|image| <= line < |image|
    ensures 0 <= line < |image| ==> r == Some(image[line])
    ensures -|image| <= line < 0 ==> r == Some(image[line + |image|])
    ensures r.Some? ==> r.value in image
  {
    if 0 <= line < |image| then Some(image[line])
    else if -|image| <= line < 0 then Some(image[line + |image|])
    else None
  }

  /** The outcome of a redraw once the image has been reconstructed. */
  function PlotNotice(image: seq<seq<int>>, exceeded: bool, line: int): (r: Notice)
    ensures exceeded ==> r == OffsetExceededError
    ensures !exceeded && 0 <= line < |image| ==> r == Plotted(image[line])
    ensures !exceeded && -|image| <= line < 0 ==> r == Plotted(image[line + |image|])
    ensures !exceeded && (line < -|image| || line >= |image|) ==> r == TraceIndexError
  {
    if exceeded then OffsetExceededError
    else match TraceRow(image, line)
      case Some(trace) => Plotted(trace)
      case None => TraceIndexError
  }

  /** The signal trace of an image: the row at the plotted line, clamped
      into the rows of the image. */
  function SignalTrace(image: seq<seq<int>>, line: int): (r: seq<int>)
    requires |image| > 0
    ensures r in image
    ensures 0 <= line < |image| ==> r == image[line]
    ensures line >= |image| ==> r == image[|image| - 1]
  {
    image[CapPlotLineToLastRow(line, |image|)]
  }

  /** A snapshot of every field of the browser and of its controls. */
  datatype Fields = Fields(
    audioData: Option<seq<int>>,
    offset: int,
    scanLineWidth: int,
    numberOfScans: int,
    adjust: real,
    plotScanline: int,
    invertSignal: bool,
    flipHorizontal: bool,
    offsetExceeded: bool,
    offsetEntry: Option<int>,
    interval: Interval,
    widthEntry: Option<int>,
    scansEntry: Option<int>,
    adjustEntry: Option<real>,
    sliderTo: int)

  /** The image reconstructed from a snapshot's samples and geometry. */
  function ImageAt(s: Fields): seq<seq<int>>
    requires s.audioData.Some? && s.scanLineWidth >= 0
  {
    Scan.Image(s.audioData.value, s.offset, s.scanLineWidth, s.numberOfScans, s.adjust, s.invertSignal)
  }

  /** Whether that reconstruction runs past the snapshot's samples. */
  ghost predicate ExceededAt(s: Fields)
    requires s.audioData.Some? && s.scanLineWidth >= 0
  {
    Scan.Exceeded(s.audioData.value, s.offset, s.scanLineWidth, s.numberOfScans, s.adjust)
  }

  /** The state after the offset entry is written with v from program code:
      the write fires the offset entry's trace. */
  function OffsetWritten(s: Fields, v: int): (t: Fields)
    ensures t.audioData.Some? ==> t.offsetEntry == Some(t.offset)
    ensures t.audioData.Some? && |t.audioData.value| > 0 ==> 0 <= t.offset < |t.audioData.value|
  {
    if s.audioData.None? then s.(offsetEntry := Some(v))
    else
      var r := ClampEntry(v, |s.audioData.value| - 1);
      s.(offset := r, offsetEntry := Some(r))
  }

  /** The state after the width entry is written with v from program code. */
  function WidthWritten(s: Fields, v: int): (t: Fields)
    ensures t.audioData.Some? ==> t.widthEntry == Some(t.scanLineWidth) && t.scanLineWidth >= 0
    ensures t.audioData.Some? && v >= 0 ==> t.scanLineWidth == v
    ensures t.audioData.Some? && v < 0 ==> t.scanLineWidth == 0
    ensures t.audioData.None? ==> t.scanLineWidth == s.scanLineWidth
  {
    if s.audioData.None? then s.(widthEntry := Some(v))
    else
      var w := ClampNonNegative(v);
      s.(scanLineWidth := w, widthEntry := Some(w))
  }

  /** The state after the scan-count entry is written with v from program
      code: its two traces run, the slider's (registered later) first. */
  function ScansWritten(s: Fields, v: int): (t: Fields)
    ensures t.plotScanline <= v && t.sliderTo == v
    ensures s.plotScanline <= v ==> t.plotScanline == s.plotScanline
    ensures t.audioData.Some? ==> t.scansEntry == Some(t.numberOfScans) && t.numberOfScans >= 0
    ensures t.audioData.Some? ==> t.numberOfScans == (if v < 0 then 0 else v)
    ensures t.audioData.None? ==> t.numberOfScans == s.numberOfScans
  {
    var u := s.(scansEntry := Some(v), plotScanline := CapPlotLine(s.plotScanline, v), sliderTo := v);
    if s.audioData.None? then u
    else
      var n := ClampNonNegative(v);
      u.(numberOfScans := n, scansEntry := Some(n))
  }

  class VoyagerBrowser {
    var audioData: Option<seq<int>>
    var offset: int
    var scanLineWidth: int
    var numberOfScans: int
    var adjust: real
    var plotScanline: int
    var invertSignal: bool
    var flipHorizontal: bool
    var offsetExceeded: bool

    // the controls: what each entry's text parses to, the selected offset
    // step and the upper end of the plot-line slider
    var offsetEntry: Option<int>
    var interval: Interval
    var widthEntry: Option<int>
    var scansEntry: Option<int>
    var adjustEntry: Option<real>
    var sliderTo: int

    /** The width and scan-count clamps keep both non-negative. */
    ghost predicate Valid()
      reads this
    {
      scanLineWidth >= 0 && numberOfScans >= 0
    }

    ghost function State(): Fields
      reads this
    {
      Fields(audioData, offset, scanLineWidth, numberOfScans, adjust, plotScanline,
             invertSignal, flipHorizontal, offsetExceeded, offsetEntry, interval,
             widthEntry, scansEntry, adjustEntry, sliderTo)
    }

    /** VoyagerBrowser.model_init and the initial contents of the controls.
        The redraw made while the window is built finds no data and shows nothing. */
    constructor ()
      ensures Valid()
      ensures State() == Fields(None, 0, DefaultScanLineWidth, DefaultNumberOfScans, 0.0, 0,
                                false, false, false, Some(0), Thousand,
                                Some(DefaultScanLineWidth), Some(DefaultNumberOfScans), Some(0.0),
                                DefaultNumberOfScans)
    {
      audioData := None;
      offset := 0;
      scanLineWidth := DefaultScanLineWidth;
      numberOfScans := DefaultNumberOfScans;
      adjust := 0.0;
      plotScanline := 0;
      invertSignal := false;
      flipHorizontal := false;
      offsetExceeded := false;
      offsetEntry := Some(0);
      interval := Thousand;
      widthEntry := Some(DefaultScanLineWidth);
      scansEntry := Some(DefaultNumberOfScans);
      adjustEntry := Some(0.0);
      sliderTo := DefaultNumberOfScans;
    }

    /** VoyagerBrowser.model_load_audio_data, given the decoded samples. */
    method LoadAudioData(samples: seq<int>)
      modifies this
      ensures State() == old(State()).(audioData := Some(samples))
    {
      audioData := Some(samples);
    }

    /** Imager.model_get_segment on the browser's current geometry: returns
        the image and records whether it ran past the samples. */
    method GetSegment() returns (image: seq<seq<int>>)
      requires Valid() && audioData.Some?
      modifies this
      ensures State() == old(State()).(offsetExceeded := ExceededAt(old(State())))
      ensures image == ImageAt(old(State()))
    {
      var exceeded;
      image, exceeded := Scan.GetSegment(audioData.value, offset, scanLineWidth, numberOfScans,
                                         adjust, invertSignal);
      if exceeded {
        offsetExceeded := true;
      } else {
        offsetExceeded := false;
      }
    }

    /** Imager.view_plot_image without the drawing: a notice when there is no
        data or the geometry ran past the samples, else the plotted row. */
    method Replot() returns (notice: Notice)
      requires Valid()
      modifies this
      ensures old(audioData).None? ==> State() == old(State()) && notice == NoDataError
      ensures old(audioData).Some? ==>
        State() == old(State()).(offsetExceeded := ExceededAt(old(State()))) &&
        notice == PlotNotice(ImageAt(old(State())), ExceededAt(old(State())), plotScanline)
    {
      if audioData.None? {
        return NoDataError;
      }
      var image := GetSegment();
      if !offsetExceeded {
        var trace := TraceRow(image, plotScanline);
        if trace.None? {
          return TraceIndexError;
        }
        notice := Plotted(trace.value);
      } else {
        notice := OffsetExceededError;
      }
    }

    /** FileMenu.sync_invert_signal: sets the polarity and redraws. */
    method SetInvertSignal(invert: bool) returns (notice: Notice)
      requires Valid()
      modifies this
      ensures old(audioData).None? ==>
        State() == old(State()).(invertSignal := invert) && notice == NoDataError
      ensures old(audioData).Some? ==>
        var t := old(State()).(invertSignal := invert);
        State() == t.(offsetExceeded := ExceededAt(t)) &&
        notice == PlotNotice(ImageAt(t), ExceededAt(t), t.plotScanline)
    {
      invertSignal := invert;
      notice := Replot();
    }

    /** FileMenu.sync_flip_horizontal: sets the mirroring and redraws; the
        flag only decides the direction of the drawn axes. */
    method SetFlipHorizontal(flip: bool) returns (notice: Notice)
      requires Valid()
      modifies this
      ensures old(audioData).None? ==>
        State() == old(State()).(flipHorizontal := flip) && notice == NoDataError
      ensures old(audioData).Some? ==>
        var t := old(State()).(flipHorizontal := flip);
        State() == t.(offsetExceeded := ExceededAt(t)) &&
        notice == PlotNotice(ImageAt(t), ExceededAt(t), t.plotScanline)
    {
      flipHorizontal := flip;
      notice := Replot();
    }

    /** OffsetControl.model_sync_with_entry, the offset entry's trace. */
    method OffsetSyncWithEntry()
      modifies this
      ensures old(audioData).None? || old(offsetEntry).None? ==> State() == old(State())
      ensures old(audioData).Some? && old(offsetEntry).Some? ==>
        State() == OffsetWritten(old(State()), old(offsetEntry).value)
    {
      if audioData.Some? {
        var text := offsetEntry;
        if text.None? {
          return;
        }
        var maxsize := |audioData.value| - 1;
        if text.value < 0 {
          offset := 0;
          offsetEntry := Some(0);
        } else if text.value > maxsize {
          offset := maxsize;
          offsetEntry := Some(maxsize);
        } else {
          offset := text.value;
        }
      }
    }

    /** Writes the offset entry (typed by the user or set by program code)
        and fires its trace. */
    method SetOffsetEntry(text: Option<int>)
      modifies this
      ensures text.None? ==> State() == old(State()).(offsetEntry := None)
      ensures text.Some? ==> State() == OffsetWritten(old(State()), text.value)
    {
      offsetEntry := text;
      OffsetSyncWithEntry();
    }

    /** OffsetControl.model_modify_offset: steps the offset by the selected
        delta when the entry still shows it, else takes the entry's value;
        clamps into the buffer and redraws. With an empty buffer the trace
        fired by each write leaves the offset at -1 or 0. */
    method OffsetModify(sign: Sign) returns (notice: Notice)
      requires Valid()
      modifies this
      ensures Valid()
      ensures old(audioData).None? ==> State() == old(State()) && notice == NoDataError
      ensures old(audioData).Some? && old(offsetEntry).None? ==>
        State() == old(State()) && notice == NoNotice
      ensures old(audioData).Some? && old(offsetEntry).Some? ==>
        var maxsize := |old(audioData).value| - 1;
        var entry := old(offsetEntry).value;
        var target := StepTarget(entry, old(offset), sign,
                                 Delta(old(interval), old(numberOfScans), old(scanLineWidth)));
        var r := if maxsize >= 0 then ClampSequential(target, maxsize)
                 else if entry == old(offset) then (if target < 0 then 0 else -1)
                 else (if target < 0 then -1 else 0);
        var moved := old(State()).(offset := r, offsetEntry := Some(r));
        State() == moved.(offsetExceeded := ExceededAt(moved)) &&
        notice == PlotNotice(ImageAt(moved), ExceededAt(moved), moved.plotScanline)
    {
      if audioData.None? {
        return NoDataError;
      }
      var text := offsetEntry;
      if text.None? {
        return NoNotice;
      }
      StepOrTakeEntry(sign);
      ClampOffset();
      notice := Replot();
    }

    /** The first half of an offset step: move by the delta (writing the
        entry, which fires its trace) when the entry still shows the offset,
        else take the entry's value. */
    method StepOrTakeEntry(sign: Sign)
      requires audioData.Some? && offsetEntry.Some?
      modifies this
      ensures State() == old(State()).(offset := offset, offsetEntry := offsetEntry)
      ensures var entry := old(offsetEntry).value;
        entry == old(offset) ==>
          offset == ClampEntry(StepTarget(entry, old(offset), sign,
                                          Delta(interval, numberOfScans, scanLineWidth)),
                               |audioData.value| - 1) &&
          offsetEntry == Some(offset)
      ensures old(offsetEntry).value != old(offset) ==>
        offset == old(offsetEntry).value && offsetEntry == old(offsetEntry)
    {
      var text := offsetEntry;
      if text.value == offset {
        var delta := Delta(interval, numberOfScans, scanLineWidth);
        if sign == Plus {
          offset := offset + delta;
        } else {
          offset := offset - delta;
        }
        SetOffsetEntry(Some(offset));
      } else {
        offset := text.value;
      }
    }

    /** The two clamps that end an offset step, each writing the offset
        entry and so firing its trace. */
    method ClampOffset()
      requires audioData.Some?
      modifies this
      ensures State() == old(State()).(offset := offset, offsetEntry := offsetEntry)
      ensures var maxsize := |old(audioData).value| - 1;
        maxsize >= 0 ==>
          offset == ClampSequential(old(offset), maxsize) &&
          offsetEntry == (if 0 <= old(offset) <= maxsize then old(offsetEntry) else Some(offset))
      ensures var maxsize := |old(audioData).value| - 1;
        maxsize < 0 ==>
          offset == (if old(offset) < 0 then -1 else 0) && offsetEntry == Some(offset)
    {
      var maxsize := |audioData.value| - 1;
      if offset < 0 {
        offset := 0;
        SetOffsetEntry(Some(0));
      }
      if offset > maxsize {
        offset := maxsize;
        SetOffsetEntry(Some(maxsize));
      }
    }

    /** ScanLineWidthControl.model_sync_with_entry, the width entry's trace. */
    method ScanLineWidthSyncWithEntry()
      requires Valid()
      modifies this
      ensures Valid()
      ensures old(audioData).None? || old(widthEntry).None? ==> State() == old(State())
      ensures old(audioData).Some? && old(widthEntry).Some? ==>
        State() == WidthWritten(old(State()), old(widthEntry).value)
    {
      if audioData.Some? {
        var text := widthEntry;
        if text.None? {
          return;
        }
        if text.value < 0 {
          scanLineWidth := 0;
          widthEntry := Some(0);
        } else {
          scanLineWidth := text.value;
        }
      }
    }

    /** Writes the width entry and fires its trace. */
    method SetScanLineWidthEntry(text: Option<int>)
      requires Valid()
      modifies this
      ensures Valid()
      ensures text.None? ==> State() == old(State()).(widthEntry := None)
      ensures text.Some? ==> State() == WidthWritten(old(State()), text.value)
    {
      widthEntry := text;
      ScanLineWidthSyncWithEntry();
    }

    /** ScanLineWidthControl.model_increase: writes entry + 1 into the entry;
        an entry that does not parse raises and changes nothing. */
    method ScanLineWidthIncrease()
      requires Valid()
      modifies this
      ensures Valid()
      ensures old(widthEntry).None? ==> State() == old(State())
      ensures old(widthEntry).Some? ==> State() == WidthWritten(old(State()), old(widthEntry).value + 1)
    {
      var text := widthEntry;
      if text.Some? {
        SetScanLineWidthEntry(Some(text.value + 1));
      }
    }

    /** ScanLineWidthControl.model_decrease: writes entry - 1 into the entry. */
    method ScanLineWidthDecrease()
      requires Valid()
      modifies this
      ensures Valid()
      ensures old(widthEntry).None? ==> State() == old(State())
      ensures old(widthEntry).Some? ==> State() == WidthWritten(old(State()), old(widthEntry).value - 1)
    {
      var text := widthEntry;
      if text.Some? {
        SetScanLineWidthEntry(Some(text.value - 1));
      }
    }

    /** NumberOfScansControl.model_sync_with_entry, one of the scan-count
        entry's traces. */
    method NumberOfScansSyncWithEntry()
      requires Valid()
      modifies this
      ensures Valid()
      ensures old(audioData).None? || old(scansEntry).None? ==> State() == old(State())
      ensures old(audioData).Some? && old(scansEntry).Some? ==>
        var n := ClampNonNegative(old(scansEntry).value);
        State() == old(State()).(numberOfScans := n, scansEntry := Some(n))
    {
      if audioData.Some? {
        var text := scansEntry;
        if text.None? {
          return;
        }
        if text.value < 0 {
          numberOfScans := 0;
          scansEntry := Some(0);
        } else {
          numberOfScans := text.value;
        }
      }
    }

    /** ScanlinePlotSliderControl.model_slide_range_update, the other trace of
        the scan-count entry: caps the plotted line at the new count and makes
        it the slider's upper end. An entry that does not parse raises on the
        comparison and changes nothing. */
    method SlideRangeUpdate()
      modifies this
      ensures old(scansEntry).None? ==> State() == old(State())
      ensures old(scansEntry).Some? ==>
        var newmax := old(scansEntry).value;
        State() == old(State()).(plotScanline := CapPlotLine(old(plotScanline), newmax),
                                 sliderTo := newmax)
    {
      var newmax := scansEntry;
      if newmax.None? {
        return;
      }
      if plotScanline > newmax.value {
        plotScanline := newmax.value;
      }
      sliderTo := newmax.value;
    }

    /** Writes the scan-count entry and fires its two traces. */
    method SetNumberOfScansEntry(text: Option<int>)
      requires Valid()
      modifies this
      ensures Valid()
      ensures text.None? ==> State() == old(State()).(scansEntry := None)
      ensures text.Some? ==> State() == ScansWritten(old(State()), text.value)
    {
      scansEntry := text;
      SlideRangeUpdate();
      NumberOfScansSyncWithEntry();
    }

    /** NumberOfScansControl.model_increase: writes entry + 1 into the entry. */
    method NumberOfScansIncrease()
      requires Valid()
      modifies this
      ensures Valid()
      ensures old(scansEntry).None? ==> State() == old(State())
      ensures old(scansEntry).Some? ==> State() == ScansWritten(old(State()), old(scansEntry).value + 1)
    {
      var text := scansEntry;
      if text.Some? {
        SetNumberOfScansEntry(Some(text.value + 1));
      }
    }

    /** NumberOfScansControl.model_decrease: writes entry - 1 into the entry. */
    method NumberOfScansDecrease()
      requires Valid()
      modifies this
      ensures Valid()
      ensures old(scansEntry).None? ==> State() == old(State())
      ensures old(scansEntry).Some? ==> State() == ScansWritten(old(State()), old(scansEntry).value - 1)
    {
      var text := scansEntry;
      if text.Some? {
        SetNumberOfScansEntry(Some(text.value - 1));
      }
    }

    /** AdjustControl.model_sync_with_entry, the adjust entry's trace. */
    method AdjustSyncWithEntry()
      modifies this
      ensures old(audioData).None? || old(adjustEntry).None? ==> State() == old(State())
      ensures old(audioData).Some? && old(adjustEntry).Some? ==>
        State() == old(State()).(adjust := old(adjustEntry).value)
    {
      if audioData.Some? {
        var text := adjustEntry;
        if text.None? {
          return;
        }
        adjust := text.value;
      }
    }

    /** Writes the adjust entry and fires its trace. */
    method SetAdjustEntry(text: Option<real>)
      modifies this
      ensures old(audioData).None? || text.None? ==> State() == old(State()).(adjustEntry := text)
      ensures old(audioData).Some? && text.Some? ==>
        State() == old(State()).(adjustEntry := text, adjust := text.value)
    {
      adjustEntry := text;
      AdjustSyncWithEntry();
    }

    /** ScanlinePlotSliderControl.model_sync_with_entry: the slider's command. */
    method ScanlinePlotSyncWithSlider(value: int)
      modifies this
      ensures State() == old(State()).(plotScanline := value)
    {
      plotScanline := value;
    }
  }

  // Properties of the controls

  /** The write-back made by the offset entry's trace is a fixed point of the
      trace: were it to fire again it would change nothing. */
  lemma OffsetWriteBackIsFixedPoint(s: Fields, v: int)
    requires s.audioData.Some? && |s.audioData.value| > 0
    ensures var t := OffsetWritten(s, v); OffsetWritten(t, t.offset) == t
  {
  }

  /** The same holds of the width entry's trace. */
  lemma WidthWriteBackIsFixedPoint(s: Fields, v: int)
    requires s.audioData.Some?
    ensures var t := WidthWritten(s, v); WidthWritten(t, t.scanLineWidth) == t
  {
  }

  /** The slider's upper end is the scan count itself, and the cap keeps a
      line at that end: a line of S on an image of S rows is not a row, and
      the redraw's trace lookup raises. */
  lemma PlotLineCapAdmitsMissingRow(image: seq<seq<int>>, line: int)
    requires line >= |image|
    ensures CapPlotLine(line, |image|) == |image|
    ensures TraceRow(image, CapPlotLine(line, |image|)) == None
    ensures PlotNotice(image, false, CapPlotLine(line, |image|)) == TraceIndexError
  {
  }

  /** The corrected cap always selects a row of a non-empty image. */
  lemma CorrectedCapSelectsRow(image: seq<seq<int>>, line: int)
    requires |image| > 0
    ensures TraceRow(image, CapPlotLineToLastRow(line, |image|)).Some?
    ensures PlotNotice(image, false, CapPlotLineToLastRow(line, |image|))
         == Plotted(SignalTrace(image, line))
  {
  }
}
