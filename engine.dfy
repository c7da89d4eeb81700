/**
 * The looping audio source (src/LoopingAudioSource.h, .cpp) as a class over
 * its stored fields, together with the positionable upstream source it pulls
 * from.  Audio samples themselves are not modelled: every upstream read is
 * recorded as a `Read` in the upstream's ghost trace, and `LoopMath.Block`
 * says which reads a block issues.
 */
module Engine {
  import opened LoopMath

  /** The largest value of a C++ `int`. */
  const IntMax: int := 0x7FFF_FFFF

  /** What the file layer yields for a file it could open: the length in
      samples and the sample rate. */
  datatype ReaderInfo = ReaderInfo(lengthInSamples: int, sampleRate: real)

  /** The positionable upstream source (a reader source over a decoded file).
      Its internals are not modelled: a read is recorded in `log`, and the
      position it reports afterwards is whatever the caller supplies as
      `landsAt`. */
  class Upstream {
    const totalLength: int
    var readPos: int
    ghost var log: seq<Read>

    constructor (totalLength: int)
      ensures this.totalLength == totalLength && readPos == 0 && log == []
    {
      this.totalLength := totalLength;
      readPos := 0;
      log := [];
    }

    method SetNextReadPosition(newPosition: int)
      modifies this`readPos
      ensures readPos == newPosition
    {
      readPos := newPosition;
    }

    /** Read `count` samples at the current read position into the
        destination from offset `destOffset`. */
    method GetNextAudioBlock(destOffset: int, count: int, landsAt: int)
      modifies this`readPos, this`log
      ensures log == old(log) + [Read(old(readPos), destOffset, count)]
      ensures readPos == landsAt
    {
      log := log + [Read(readPos, destOffset, count)];
      readPos := landsAt;
    }

    function GetNextReadPosition(): (p: int)
      reads this
      ensures p == readPos
    {
      readPos
    }
  }

  /** A source that repeats `[loopStart, loopEnd)` of its upstream endlessly. */
  class LoopingAudioSource {
    const source: Upstream
    /** Whether the engine is responsible for destroying its upstream. */
    const ownsSource: bool

    var loopStart: int
    var loopEnd: int
    var looping: bool
    var nextPlayPos: int
    var crossfadeSamples: int
    var curveX: real
    var curveY: real

    constructor (src: Upstream, deleteWhenRemoved: bool)
      ensures source == src && ownsSource == deleteWhenRemoved
      ensures loopStart == 0 && loopEnd == 0 && looping && nextPlayPos == 0
      ensures crossfadeSamples == 0 && curveX == 0.25 && curveY == 0.75
    {
      source := src;
      ownsSource := deleteWhenRemoved;
      loopStart, loopEnd := 0, 0;
      looping := true;
      nextPlayPos := 0;
      crossfadeSamples := 0;
      curveX, curveY := 0.25, 0.75;
    }

    /** Inline accessors: each reports the stored field. */
    function GetLoopStart(): (s: int) reads this ensures s == loopStart { loopStart }
    function GetLoopEnd(): (e: int) reads this ensures e == loopEnd { loopEnd }
    function IsLooping(): (b: bool) reads this ensures b == looping { looping }
    function GetCrossfadeSamples(): (n: int) reads this ensures n == crossfadeSamples { crossfadeSamples }
    function GetCurveX(): (x: real) reads this ensures x == curveX { curveX }
    function GetCurveY(): (y: real) reads this ensures y == curveY { curveY }

    /** The position the next block starts from. */
    function GetNextReadPosition(): (p: int) reads this ensures p == nextPlayPos { nextPlayPos }

    /** The upstream's length, whether or not the engine is looping. */
    function GetTotalLength(): (n: int)
      ensures n == source.totalLength
    {
      source.totalLength
    }

    /** Stores the range as given; the range check is a debug assertion only,
        so it does not restrict the stored values. */
    method SetLoopRange(startSample: int, endSample: int)
      modifies this`loopStart, this`loopEnd
      ensures GetLoopStart() == startSample && GetLoopEnd() == endSample
    {
      loopStart := startSample;
      loopEnd := endSample;
    }

    method SetLooping(shouldLoop: bool)
      modifies this`looping
      ensures IsLooping() == shouldLoop
    {
      looping := shouldLoop;
    }

    method SetCrossfadeSamples(samples: int)
      modifies this`crossfadeSamples
      ensures GetCrossfadeSamples() == samples
    {
      crossfadeSamples := samples;
    }

    method SetCrossfadeCurve(cx: real, cy: real)
      modifies this`curveX, this`curveY
      ensures GetCurveX() == cx && GetCurveY() == cy
    {
      curveX, curveY := cx, cy;
    }

    /** Sets the position of the next sample to produce, unclamped. */
    method SetNextReadPosition(newPosition: int)
      modifies this`nextPlayPos
      ensures GetNextReadPosition() == newPosition
    {
      nextPlayPos := newPosition;
    }

    /** Fills destination samples `[startSample, startSample + numSamples)`.
        `upstreamLandsAt` is the position the upstream reports after a read. */
    method GetNextAudioBlock(startSample: int, numSamples: int, upstreamLandsAt: int)
      requires !IsForwarding(looping, loopStart, loopEnd) ==> loopEnd - loopStart <= IntMax
      modifies this`nextPlayPos, source`readPos, source`log
      ensures var o := Block(looping, loopStart, loopEnd, old(nextPlayPos),
                             startSample, numSamples, upstreamLandsAt);
              source.log == old(source.log) + o.calls && nextPlayPos == o.endPos &&
              source.readPos == (if o.calls == [] then old(source.readPos) else upstreamLandsAt)
    {
      var pos := nextPlayPos;

      if !looping {
        source.SetNextReadPosition(pos);
        source.GetNextAudioBlock(startSample, numSamples, upstreamLandsAt);
        nextPlayPos := source.GetNextReadPosition();
        return;
      }

      var lStart, lEnd := loopStart, loopEnd;

      if lEnd <= lStart || lEnd <= 0 {
        source.SetNextReadPosition(pos);
        source.GetNextAudioBlock(startSample, numSamples, upstreamLandsAt);
        nextPlayPos := source.GetNextReadPosition();
        return;
      }

      if pos >= lEnd || pos < lStart {
        pos := lStart;
      }

      var samplesRemaining := numSamples;
      var destOffset := startSample;
      ghost var plan := LoopPlan(pos, destOffset, samplesRemaining, lStart, lEnd);
      ghost var before := source.log;

      while samplesRemaining > 0
        invariant lStart <= pos < lEnd
        invariant var rest := LoopPlan(pos, destOffset, samplesRemaining, lStart, lEnd);
                  before + plan.calls == source.log + rest.calls && rest.endPos == plan.endPos
        invariant |before| <= |source.log|
        invariant source.readPos == (if |source.log| == |before| then old(source.readPos) else upstreamLandsAt)
        decreases samplesRemaining
      {
        var samplesUntilEnd := lEnd - pos;
        assert 0 < samplesUntilEnd <= IntMax;  // the conversion to int keeps its value
        var samplesToRead := Min(samplesRemaining, samplesUntilEnd);

        ghost var rest := LoopPlan(pos, destOffset, samplesRemaining, lStart, lEnd);
        ghost var readAt, writeAt := pos, destOffset;
        source.SetNextReadPosition(pos);
        source.GetNextAudioBlock(destOffset, samplesToRead, upstreamLandsAt);

        pos := pos + samplesToRead;
        destOffset := destOffset + samplesToRead;
        samplesRemaining := samplesRemaining - samplesToRead;

        if pos >= lEnd {
          pos := lStart;
        }
        assert rest.calls == [Read(readAt, writeAt, samplesToRead)]
                             + LoopPlan(pos, destOffset, samplesRemaining, lStart, lEnd).calls;
      }

      nextPlayPos := pos;
    }
  }
}
