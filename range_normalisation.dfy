/**
 * The loop-range normalisation both loaders apply to a requested or preset
 * loop range before handing it to the engine (src/MainComponent.cpp:109-113,
 * repeated verbatim at src/SoundLayer.cpp:84-88).
 *
 * As written, a requested end of exactly 0 survives the end clamp, so a
 * non-empty file gets the empty range `[0, 0)`, which the engine's range
 * check rejects.  `NormaliseLoopRangeAsWritten` is the code as written, and
 * the loaders use it; `NormaliseLoopRange` is the evidently intended version,
 * which also replaces a zero end by the file length and otherwise agrees
 * with it.
 */
module RangeNormalisation {
  import opened LoopMath

  datatype LoopRange = LoopRange(start: int, end: int)

  /** The normalisation as the loaders write it: an end that is negative or
      past the file becomes the file length, then a start that is negative
      or not before the (new) end becomes 0. */
  function NormaliseLoopRangeAsWritten(loopStart: int, loopEnd: int, totalSamples: int): (r: LoopRange)
    ensures 0 <= loopEnd <= totalSamples ==> r.end == loopEnd
    ensures !(0 <= loopEnd <= totalSamples) ==> r.end == totalSamples
    ensures 0 <= loopStart < r.end ==> r.start == loopStart
    ensures !(0 <= loopStart < r.end) ==> r.start == 0
  {
    var loopEnd' := if loopEnd < 0 || loopEnd > totalSamples then totalSamples else loopEnd;
    var loopStart' := if loopStart < 0 || loopStart >= loopEnd' then 0 else loopStart;
    LoopRange(loopStart', loopEnd')
  }

  /** The request `(0, 0)` on a file of 1000 samples normalises, as written,
      to the empty range, which the engine's range check rejects. */
  lemma AsWrittenZeroEndRejected()
    ensures NormaliseLoopRangeAsWritten(0, 0, 1000) == LoopRange(0, 0)
    ensures !RangeAccepted(0, 0)
  {
  }

  /** As written, the result meets the range check for a non-empty file
      whenever the requested end is not 0. */
  lemma AsWrittenAcceptedUnlessZeroEnd(loopStart: int, loopEnd: int, totalSamples: int)
    requires totalSamples > 0 && loopEnd != 0
    ensures var r := NormaliseLoopRangeAsWritten(loopStart, loopEnd, totalSamples);
            RangeAccepted(r.start, r.end) && r.end <= totalSamples
  {
  }

  /** As written, an empty file gets the degenerate range `[0, 0)`, which the
      engine forwards instead of looping. */
  lemma AsWrittenEmptyFileRange(loopStart: int, loopEnd: int)
    ensures NormaliseLoopRangeAsWritten(loopStart, loopEnd, 0) == LoopRange(0, 0)
    ensures IsForwarding(true, 0, 0)
  {
  }

  /** As written, a request that already lies in the file is kept unchanged. */
  lemma AsWrittenValidRequestKept(loopStart: int, loopEnd: int, totalSamples: int)
    requires RangeAccepted(loopStart, loopEnd) && loopEnd <= totalSamples
    ensures NormaliseLoopRangeAsWritten(loopStart, loopEnd, totalSamples) == LoopRange(loopStart, loopEnd)
  {
  }

  /** As written, the chooser's request `(0, -1)` means the whole file. */
  lemma AsWrittenWholeFileRange(totalSamples: int)
    ensures NormaliseLoopRangeAsWritten(0, -1, totalSamples) == LoopRange(0, totalSamples)
  {
  }

  /** As written, normalising a normalised range again changes nothing. */
  lemma AsWrittenIdempotent(loopStart: int, loopEnd: int, totalSamples: int)
    ensures var r := NormaliseLoopRangeAsWritten(loopStart, loopEnd, totalSamples);
            NormaliseLoopRangeAsWritten(r.start, r.end, totalSamples) == r
  {
  }

  /** The normalisation with a zero end treated like a missing one: an end
      that is not positive or past the file becomes the file length, then a
      start that is negative or not before the (new) end becomes 0. */
  function NormaliseLoopRange(loopStart: int, loopEnd: int, totalSamples: int): (r: LoopRange)
    ensures 0 < loopEnd <= totalSamples ==> r.end == loopEnd
    ensures !(0 < loopEnd <= totalSamples) ==> r.end == totalSamples
    ensures 0 <= loopStart < r.end ==> r.start == loopStart
    ensures !(0 <= loopStart < r.end) ==> r.start == 0
  {
    var loopEnd' := if loopEnd <= 0 || loopEnd > totalSamples then totalSamples else loopEnd;
    var loopStart' := if loopStart < 0 || loopStart >= loopEnd' then 0 else loopStart;
    LoopRange(loopStart', loopEnd')
  }

  /** The two normalisations differ only for a requested end of 0. */
  lemma AgreesWithAsWritten(loopStart: int, loopEnd: int, totalSamples: int)
    requires loopEnd != 0
    ensures NormaliseLoopRange(loopStart, loopEnd, totalSamples)
            == NormaliseLoopRangeAsWritten(loopStart, loopEnd, totalSamples)
  {
  }

  /** For a non-empty file the normalised range lies in the file and meets
      the engine's range check `0 <= start < end`. */
  lemma NormalisedRangeAccepted(loopStart: int, loopEnd: int, totalSamples: int)
    requires totalSamples > 0
    ensures var r := NormaliseLoopRange(loopStart, loopEnd, totalSamples);
            RangeAccepted(r.start, r.end) && r.end <= totalSamples
  {
  }

  /** For an empty file the normalised range is the degenerate `[0, 0)`,
      which the engine forwards instead of looping. */
  lemma EmptyFileRange(loopStart: int, loopEnd: int)
    ensures NormaliseLoopRange(loopStart, loopEnd, 0) == LoopRange(0, 0)
    ensures IsForwarding(true, 0, 0)
  {
  }

  /** A request that already lies in the file is kept unchanged. */
  lemma ValidRequestKept(loopStart: int, loopEnd: int, totalSamples: int)
    requires RangeAccepted(loopStart, loopEnd) && loopEnd <= totalSamples
    ensures NormaliseLoopRange(loopStart, loopEnd, totalSamples) == LoopRange(loopStart, loopEnd)
  {
  }

  /** The request `(0, -1)` used for a freshly chosen file means the whole file. */
  lemma WholeFileRange(totalSamples: int)
    ensures NormaliseLoopRange(0, -1, totalSamples) == LoopRange(0, totalSamples)
  {
  }

  /** Normalising a normalised range again changes nothing. */
  lemma NormaliseIdempotent(loopStart: int, loopEnd: int, totalSamples: int)
    ensures var r := NormaliseLoopRange(loopStart, loopEnd, totalSamples);
            NormaliseLoopRange(r.start, r.end, totalSamples) == r
  {
  }
}
