/**
 * The single-file player component (src/MainComponent.cpp): loading a file
 * tears down the old source chain, builds a reader source and a looping
 * source over it, and configures the loop.  The transport, device and
 * waveform display it also drives are not part of this model.
 */
module MainApp {
  import opened Wrappers
  import opened LoopMath
  import opened Engine
  import opened RangeNormalisation

  class MainComponent {
    var readerSource: Upstream?
    var loopingSource: LoopingAudioSource?

    constructor ()
      ensures readerSource == null && loopingSource == null
    {
      readerSource := null;
      loopingSource := null;
    }

    /** Load a file whose reader is `reader` (None when no reader can be
        created for it) with the requested loop range. */
    method LoadAudioFile(reader: Option<ReaderInfo>, loopStart: int, loopEnd: int)
      modifies this
      ensures reader.None? ==> readerSource == null && loopingSource == null
      ensures reader.Some? ==>
                readerSource != null && loopingSource != null &&
                fresh(readerSource) && fresh(loopingSource) &&
                readerSource.totalLength == reader.value.lengthInSamples &&
                readerSource.log == [] &&
                loopingSource.source == readerSource && !loopingSource.ownsSource &&
                loopingSource.IsLooping() && loopingSource.GetNextReadPosition() == 0 &&
                LoopRange(loopingSource.GetLoopStart(), loopingSource.GetLoopEnd())
                  == NormaliseLoopRangeAsWritten(loopStart, loopEnd, reader.value.lengthInSamples)
      ensures reader.Some? && reader.value.lengthInSamples > 0 && loopEnd != 0 ==>
                RangeAccepted(loopingSource.GetLoopStart(), loopingSource.GetLoopEnd())
    {
      loopingSource := null;
      readerSource := null;

      if reader.None? {
        return;
      }

      var totalSamples := reader.value.lengthInSamples;
      var range := NormaliseLoopRangeAsWritten(loopStart, loopEnd, totalSamples);

      var upstream := new Upstream(totalSamples);
      var engine := new LoopingAudioSource(upstream, false);
      engine.SetLoopRange(range.start, range.end);
      engine.SetLooping(true);
      readerSource := upstream;
      loopingSource := engine;

      if totalSamples > 0 && loopEnd != 0 {
        AsWrittenAcceptedUnlessZeroEnd(loopStart, loopEnd, totalSamples);
      }
    }

    /** A file picked in the chooser is loaded looping over the whole file;
        a choice that is not an existing file changes nothing. */
    method LoadFileFromChooser(fileExists: bool, reader: Option<ReaderInfo>)
      modifies this
      ensures !fileExists ==> readerSource == old(readerSource) && loopingSource == old(loopingSource)
      ensures fileExists && reader.None? ==> readerSource == null && loopingSource == null
      ensures fileExists && reader.Some? ==>
                readerSource != null && loopingSource != null &&
                fresh(readerSource) && fresh(loopingSource) &&
                readerSource.totalLength == reader.value.lengthInSamples &&
                readerSource.log == [] &&
                loopingSource.source == readerSource && !loopingSource.ownsSource &&
                loopingSource.IsLooping() && loopingSource.GetNextReadPosition() == 0 &&
                loopingSource.GetLoopStart() == 0 &&
                loopingSource.GetLoopEnd() == reader.value.lengthInSamples
    {
      if !fileExists {
        return;
      }
      LoadAudioFile(reader, 0, -1);
      if reader.Some? {
        AsWrittenWholeFileRange(reader.value.lengthInSamples);
      }
    }
  }
}
