/**
 * Client scenarios: what a caller of the engine and of a sound layer can
 * conclude from their contracts alone.
 */
module Scenarios {
  import opened Wrappers
  import opened LoopMath
  import opened Engine
  import opened Layer
  import opened RangeNormalisation
  import opened MainApp

  /** Looping `[0, 50000)` of a 100000-sample file from position 0: after
      50000 samples the position is back at 0, after 25000 more it is 25000,
      and the reported length stays the file's length while looping. */
  method ContinuousLoop() returns (afterFirst: int, afterSecond: int, length: int)
    ensures afterFirst == 0 && afterSecond == 25000
    ensures length == 100000
  {
    var upstream := new Upstream(100000);
    var engine := new LoopingAudioSource(upstream, false);
    engine.SetLoopRange(0, 50000);
    engine.SetLooping(true);

    engine.GetNextAudioBlock(0, 50000, 0);
    PlanEndPos(0, 0, 50000, 0, 50000);
    afterFirst := engine.GetNextReadPosition();

    engine.GetNextAudioBlock(0, 25000, 0);
    PlanEndPos(0, 0, 25000, 0, 50000);
    afterSecond := engine.GetNextReadPosition();

    length := engine.GetTotalLength();
  }

  /** An inverted range `[100, 50)` makes the engine forward: the upstream
      receives the request unchanged as one read at position 0, the position
      afterwards is what the upstream reports, and the length is the
      upstream's. */
  method InvalidRangeForwards(totalLength: int, startSample: int, numSamples: int,
                              upstreamLandsAt: int)
    returns (next: int, length: int, ghost log: seq<Read>)
    ensures log == [Read(0, startSample, numSamples)]
    ensures next == upstreamLandsAt && length == totalLength
  {
    var upstream := new Upstream(totalLength);
    var engine := new LoopingAudioSource(upstream, false);
    engine.SetLoopRange(100, 50);
    engine.GetNextAudioBlock(startSample, numSamples, upstreamLandsAt);
    next := engine.GetNextReadPosition();
    length := engine.GetTotalLength();
    log := upstream.log;
  }

  /** A freshly constructed layer whose file cannot be read reports no
      crossfade and the editor's default curve point. */
  method FailedLoadFallsBack(loopStart: int, loopEnd: int, crossfadeSamples: int,
                             curveX: real, curveY: real) returns (loaded: bool, n: int, x: real, y: real)
    ensures !loaded && n == 0 && x == 0.25 && y == 0.75
  {
    var layer := new SoundLayer();
    loaded := layer.LoadFile(None, loopStart, loopEnd, crossfadeSamples, curveX, curveY);
    n := layer.GetCrossfadeSamples();
    x := layer.GetCrossfadeCurveX();
    y := layer.GetCrossfadeCurveY();
  }

  /** Any layer whose reload fails reports no crossfade and whatever point
      the editor held before: the failed load leaves the editor untouched,
      so a layer that had loaded with some curve keeps reporting it. */
  method FailedReloadKeepsEditorPoint(layer: SoundLayer, loopStart: int, loopEnd: int,
                                      crossfadeSamples: int, curveX: real, curveY: real)
    returns (loaded: bool, n: int, x: real, y: real)
    modifies layer, layer.curveEditor
    ensures !loaded && n == 0
    ensures x == old(layer.curveEditor.cpX) && y == old(layer.curveEditor.cpY)
  {
    loaded := layer.LoadFile(None, loopStart, loopEnd, crossfadeSamples, curveX, curveY);
    n := layer.GetCrossfadeSamples();
    x := layer.GetCrossfadeCurveX();
    y := layer.GetCrossfadeCurveY();
  }

  /** A layer loaded with the curve (0.5, 0.5) whose reload then fails still
      reports (0.5, 0.5), the point its editor was given. */
  method ReloadFailureAfterLoad(info: ReaderInfo) returns (x: real, y: real)
    ensures x == 0.5 && y == 0.5
  {
    var layer := new SoundLayer();
    var first := layer.LoadFile(Some(info), 0, -1, 0, 0.5, 0.5);
    var second, n;
    second, n, x, y := FailedReloadKeepsEditorPoint(layer, 0, -1, 0, 0.25, 0.75);
  }

  /** A layer that loaded a file reports the crossfade length and curve it
      was loaded with. */
  method LoadedLayerReports(info: ReaderInfo, loopStart: int, loopEnd: int, crossfadeSamples: int,
                            curveX: real, curveY: real) returns (loaded: bool, n: int, x: real, y: real)
    ensures loaded && n == crossfadeSamples && x == curveX && y == curveY
  {
    var layer := new SoundLayer();
    loaded := layer.LoadFile(Some(info), loopStart, loopEnd, crossfadeSamples, curveX, curveY);
    n := layer.GetCrossfadeSamples();
    x := layer.GetCrossfadeCurveX();
    y := layer.GetCrossfadeCurveY();
  }

  /** A preset that stores a loop end of 0, loaded on a 1000-sample file:
      the engine receives the empty range `[0, 0)`, the range check rejects
      it, and every block is forwarded instead of looped. */
  method ZeroEndPresetForwards() returns (start: int, end: int, accepted: bool, forwards: bool)
    ensures start == 0 && end == 0 && !accepted && forwards
  {
    var player := new MainComponent();
    player.LoadAudioFile(Some(ReaderInfo(1000, 44100.0)), 0, 0);
    AsWrittenZeroEndRejected();
    var engine := player.loopingSource;
    start := engine.GetLoopStart();
    end := engine.GetLoopEnd();
    accepted := RangeAccepted(start, end);
    forwards := IsForwarding(engine.IsLooping(), start, end);
  }
}
