/**
 * One layer of the multi-layer player (src/SoundLayer.cpp, .h): its own
 * reader source and looping source, plus the curve editor whose control
 * point stands in for the engine's curve while no file is loaded.  Sliders,
 * volume, the waveform display and the transport are not part of this model.
 */
module Layer {
  import opened Wrappers
  import opened LoopMath
  import opened Engine
  import opened RangeNormalisation

  /** `juce::jlimit`: `value` clamped to `[lo, hi]`. */
  function Limit(lo: real, hi: real, value: real): (r: real)
    requires lo <= hi
    ensures lo <= r <= hi
    ensures lo <= value <= hi ==> r == value
    ensures value < lo ==> r == lo
    ensures value > hi ==> r == hi
  {
    if value < lo then lo else if hi < value then hi else value
  }

  /** The crossfade-curve editor's stored control point. */
  class CurveEditor {
    var cpX: real
    var cpY: real

    constructor ()
      ensures cpX == 0.25 && cpY == 0.75
    {
      cpX, cpY := 0.25, 0.75;
    }

    function GetControlPointX(): (x: real) reads this ensures x == cpX { cpX }
    function GetControlPointY(): (y: real) reads this ensures y == cpY { cpY }

    /** Stores the point with each coordinate clamped to `[0.05, 0.95]`. */
    method SetControlPoint(cx: real, cy: real)
      modifies this
      ensures GetControlPointX() == Limit(0.05, 0.95, cx)
      ensures GetControlPointY() == Limit(0.05, 0.95, cy)
    {
      cpX := Limit(0.05, 0.95, cx);
      cpY := Limit(0.05, 0.95, cy);
    }
  }

  class SoundLayer {
    var readerSource: Upstream?
    var loopingSource: LoopingAudioSource?
    const curveEditor: CurveEditor
    var fileSampleRate: real

    constructor ()
      ensures readerSource == null && loopingSource == null && fileSampleRate == 0.0
      ensures fresh(curveEditor) && curveEditor.cpX == 0.25 && curveEditor.cpY == 0.75
    {
      readerSource := null;
      loopingSource := null;
      curveEditor := new CurveEditor();
      fileSampleRate := 0.0;
    }

    /** A file is loaded exactly while the layer holds a reader source. */
    predicate IsFileLoaded(): (b: bool) reads this ensures b <==> readerSource != null { readerSource != null }

    /** Load a file whose reader is `reader` (None when no reader can be
        created for it) with a requested loop range, crossfade length and
        crossfade curve.  Returns whether the file was loaded. */
    method LoadFile(reader: Option<ReaderInfo>, loopStart: int, loopEnd: int,
                    crossfadeSamples: int, curveX: real, curveY: real) returns (loaded: bool)
      modifies this, curveEditor
      ensures loaded == reader.Some?
      ensures !loaded ==>
                readerSource == null && loopingSource == null && !IsFileLoaded() &&
                fileSampleRate == old(fileSampleRate) &&
                curveEditor.cpX == old(curveEditor.cpX) && curveEditor.cpY == old(curveEditor.cpY)
      ensures loaded ==>
                readerSource != null && loopingSource != null && IsFileLoaded() &&
                fresh(readerSource) && fresh(loopingSource) &&
                readerSource.totalLength == reader.value.lengthInSamples &&
                readerSource.log == [] &&
                loopingSource.source == readerSource && !loopingSource.ownsSource &&
                fileSampleRate == reader.value.sampleRate &&
                LoopRange(loopingSource.GetLoopStart(), loopingSource.GetLoopEnd())
                  == NormaliseLoopRangeAsWritten(loopStart, loopEnd, reader.value.lengthInSamples) &&
                loopingSource.IsLooping() && loopingSource.GetNextReadPosition() == 0 &&
                loopingSource.GetCrossfadeSamples() == crossfadeSamples &&
                loopingSource.GetCurveX() == curveX && loopingSource.GetCurveY() == curveY &&
                curveEditor.cpX == Limit(0.05, 0.95, curveX) &&
                curveEditor.cpY == Limit(0.05, 0.95, curveY)
      ensures loaded && reader.value.lengthInSamples > 0 && loopEnd != 0 ==>
                RangeAccepted(loopingSource.GetLoopStart(), loopingSource.GetLoopEnd())
    {
      loopingSource := null;
      readerSource := null;

      if reader.None? {
        return false;
      }

      fileSampleRate := reader.value.sampleRate;

      var totalSamples := reader.value.lengthInSamples;
      var range := NormaliseLoopRangeAsWritten(loopStart, loopEnd, totalSamples);

      var upstream := new Upstream(totalSamples);
      var engine := new LoopingAudioSource(upstream, false);
      engine.SetLoopRange(range.start, range.end);
      engine.SetLooping(true);
      engine.SetCrossfadeSamples(crossfadeSamples);
      engine.SetCrossfadeCurve(curveX, curveY);

      curveEditor.SetControlPoint(curveX, curveY);

      readerSource := upstream;
      loopingSource := engine;

      if totalSamples > 0 && loopEnd != 0 {
        AsWrittenAcceptedUnlessZeroEnd(loopStart, loopEnd, totalSamples);
      }
      return true;
    }

    /** The engine's crossfade length, or 0 while no file is loaded. */
    function GetCrossfadeSamples(): (n: int)
      reads this, loopingSource
      ensures loopingSource == null ==> n == 0
      ensures loopingSource != null ==> n == loopingSource.GetCrossfadeSamples()
    {
      if loopingSource != null then loopingSource.GetCrossfadeSamples() else 0
    }

    /** The engine's curve x coordinate, or the editor's while no file is loaded. */
    function GetCrossfadeCurveX(): (x: real)
      reads this, loopingSource, curveEditor
      ensures loopingSource == null ==> x == curveEditor.GetControlPointX()
      ensures loopingSource != null ==> x == loopingSource.GetCurveX()
    {
      if loopingSource != null then loopingSource.GetCurveX() else curveEditor.GetControlPointX()
    }

    /** The engine's curve y coordinate, or the editor's while no file is loaded. */
    function GetCrossfadeCurveY(): (y: real)
      reads this, loopingSource, curveEditor
      ensures loopingSource == null ==> y == curveEditor.GetControlPointY()
      ensures loopingSource != null ==> y == loopingSource.GetCurveY()
    {
      if loopingSource != null then loopingSource.GetCurveY() else curveEditor.GetControlPointY()
    }
  }
}
