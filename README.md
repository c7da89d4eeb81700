# Looping audio source: a Dafny model

This project models the loop-position engine of a small JUCE player. It also
models the loop-range normalisation that both of the player's loaders run
before configuring the engine.

`LoopingAudioSource` is a block-pull audio source. It turns a finite upstream
source into an endless stream that repeats the samples `[loopStart, loopEnd)`.
The model covers these parts:

- **`LoopMath`** (`loop_math.dfy`): a pure description of one rendered block.
  `Block` gives the upstream reads the block issues, each as a (read position,
  destination offset, count) triple, plus the play position stored afterwards.
  The block either forwards the request unchanged or runs the chunking loop,
  described by `LoopPlan`. The lemmas prove the looping behaviour:
  - every chunk lies inside the loop;
  - the chunks tile the destination and their counts add up to the request;
  - each destination sample receives the upstream sample found by moving
    along the loop from the start position (`PlanWritesLoop`);
  - the new position is that start moved `numSamples` along the loop, taken
    modulo the loop length;
  - consecutive blocks keep the loop phase.
- **`Engine`** (`engine.dfy`): the `LoopingAudioSource` class, with the
  fields the source stores and their initial values. Its `GetNextAudioBlock`
  is the source's `while` loop. Its loop invariants prove that the loop
  issues exactly the reads `Block` describes and stores the position `Block`
  gives. The upstream source is a small class, `Upstream`, that records every
  read in a ghost log.
- **`RangeNormalisation`** (`range_normalisation.dfy`): how the loaders clamp
  a requested loop range to the file length. It includes the code as
  written and a corrected version (see Findings).
- **`MainApp`** and **`Layer`** (`main_component.dfy`, `sound_layer.dfy`):
  the two loaders. Each tears down the old source chain, stops early when no
  reader can be created, and configures a new engine. `Layer` also has the
  sound layer's getters, which fall back to defaults when no engine exists.
- **`Scenarios`** (`scenarios.dfy`): client methods that show what a caller
  can conclude from the contracts alone.

The header of `LoopingAudioSource` (src/LoopingAudioSource.h:18-23, 44-60)
declares crossfade members: a crossfade length and curve point with their
setters and getters, a head cache (`headCache`, `headCacheLength`,
`cachedLoopStart`, `cachedXfade`), a fade lookup table (`fadeLUT`,
`rebuildLUT`) and Bezier helpers (`solveBezierT`, `evalBezierY`). The code's
`getNextAudioBlock` uses none of them. What the implementation does, and this
model follows:

- `getTotalLength` returns the upstream length, whether or not the engine is
  looping.
- A block whose start position is outside the loop starts again at
  `loopStart`; a position inside the loop is kept.
- A looping block is read in chunks that never cross `loopEnd`, jumping back
  to `loopStart` at the end of the loop, with no blending.

Environment inputs are parameters of the modelled methods:

- A file reader is an `Option<ReaderInfo>`: `None` when no reader can be
  created for the file.
- Whether a chosen file exists is a `bool`.
- The position the upstream reports after a read is `upstreamLandsAt`. The
  model does not determine it.

## Model

| member | source | states |
|---|---|---|
| `LoopMath.RangeAccepted` | src/LoopingAudioSource.cpp:12 | the debug range check `0 <= start < end`; every range it accepts is looped, not forwarded, once looping is on |
| `LoopMath.IsForwarding` | src/LoopingAudioSource.cpp:36-53 | a block is looped exactly when looping is on, `start < end` and `end > 0`; in every other case it is forwarded |
| `LoopMath.Min` | src/LoopingAudioSource.cpp:65 | `jmin`: the result is one of the two values and at most both |
| `LoopMath.WrapIn` | src/LoopingAudioSource.cpp:55-57 | the looping start position lies in `[loopStart, loopEnd)`; a position inside the loop is kept; any other position becomes `loopStart` |
| `LoopMath.LoopPlan` | src/LoopingAudioSource.cpp:59-80 | the chunking loop: every chunk reads at least one sample and lies inside the loop, and the final position lies in `[loopStart, loopEnd)` |
| `LoopMath.Block` | src/LoopingAudioSource.cpp:32-81 | a block with looping off or a degenerate range (`end <= start` or `end <= 0`) is one upstream read at the play position over the whole request, and the position becomes what the upstream reports; otherwise every read lies in the loop and the new position is inside the loop |
| `LoopMath.PlanTiles` | src/LoopingAudioSource.cpp:62-78 | the chunks tile the destination contiguously from `startSample`, covering exactly the requested count (none when the request is not positive) |
| `LoopMath.TilesCount` | src/LoopingAudioSource.cpp:59-73 | the chunk counts of a tiling sum to the tiled length |
| `LoopMath.PlanEndPos` | src/LoopingAudioSource.cpp:59-80 | after a looping block the position is `start + ((p0 - start + numSamples) mod (end - start))`, where `p0` is the normalised start position |
| `LoopMath.PlanWritesLoop` | src/LoopingAudioSource.cpp:62-78 | destination index `startSample + k`, for `0 <= k < numSamples`, receives upstream sample `start + ((p0 - start + k) mod (end - start))`; indices outside the request are not written |
| `LoopMath.PlanEndPosSplits` | src/LoopingAudioSource.cpp:59-80 | a looping block of `a` samples followed by one of `b` samples ends where a single block of `a + b` samples ends |
| `LoopMath.LoopingBlock` | src/LoopingAudioSource.cpp:55-80 | on the looping path the first read starts at the normalised position; the reads tile the request and sum to `numSamples`; the position moves `numSamples` along the loop |
| `LoopMath.ExactWrap` | src/LoopingAudioSource.cpp:62-80 | reading exactly `end - start` samples from `start` is a single read of the whole loop and leaves the position at `start` |
| `LoopMath.EmptyRequest` | src/LoopingAudioSource.cpp:59-80 | a looping request of 0 samples performs no read and only stores the normalised position |
| `LoopMath.ResetIsNotFold` | src/LoopingAudioSource.cpp:55-57 | position 12 in the loop `[0, 10)` restarts at 0, where a modular fold would give 2 |
| `LoopMath.FreshEngineForwards` | src/LoopingAudioSource.h:38-42 | with the initial fields (range `[0, 0)`, looping on, position 0), a block is forwarded as one read at position 0 |
| `Engine.Upstream.constructor` | src/MainComponent.cpp:115 | a fresh reader source over a file of the given length reads from position 0 and has performed no read |
| `Engine.Upstream.GetNextReadPosition` | src/LoopingAudioSource.cpp:40-51 | the upstream's current read position, the value the engine copies after a forwarded read |
| `Engine.Upstream.SetNextReadPosition` | src/LoopingAudioSource.cpp:68 | the upstream's read position becomes the given position |
| `Engine.Upstream.GetNextAudioBlock` | src/LoopingAudioSource.cpp:69 | one read at the upstream's current position is appended to its log; its reported position afterwards is the supplied value |
| `Engine.LoopingAudioSource.constructor` | src/LoopingAudioSource.h:38-51 | a fresh engine has `loopStart = 0`, `loopEnd = 0`, looping on, position 0, crossfade 0 and curve point (0.25, 0.75), over the given upstream and ownership flag |
| `Engine.LoopingAudioSource.GetLoopStart` | src/LoopingAudioSource.h:13 | the stored loop start, the value `SetLoopRange` last stored |
| `Engine.LoopingAudioSource.GetLoopEnd` | src/LoopingAudioSource.h:14 | the stored loop end, the value `SetLoopRange` last stored |
| `Engine.LoopingAudioSource.IsLooping` | src/LoopingAudioSource.h:33 | the stored looping flag, the value `SetLooping` last stored |
| `Engine.LoopingAudioSource.GetCrossfadeSamples` | src/LoopingAudioSource.h:19 | the stored crossfade length |
| `Engine.LoopingAudioSource.GetCurveX` | src/LoopingAudioSource.h:22 | the stored curve x coordinate |
| `Engine.LoopingAudioSource.GetCurveY` | src/LoopingAudioSource.h:23 | the stored curve y coordinate |
| `Engine.LoopingAudioSource.GetNextReadPosition` | src/LoopingAudioSource.cpp:88-91 | the stored play position: what `SetNextReadPosition` stored, or the end position of the last block |
| `Engine.LoopingAudioSource.SetLoopRange` | src/LoopingAudioSource.cpp:10-15 | `getLoopStart`/`getLoopEnd` then return exactly the given start and end; the frame says no other field and no other method changes them |
| `Engine.LoopingAudioSource.SetLooping` | src/LoopingAudioSource.cpp:17-20 | `isLooping` then returns the given flag; nothing else changes |
| `Engine.LoopingAudioSource.SetCrossfadeSamples` | src/LoopingAudioSource.h:18-19 | `getCrossfadeSamples` then returns the given count; nothing else changes |
| `Engine.LoopingAudioSource.SetCrossfadeCurve` | src/LoopingAudioSource.h:21-23 | `getCurveX`/`getCurveY` then return the given point; nothing else changes |
| `Engine.LoopingAudioSource.SetNextReadPosition` | src/LoopingAudioSource.cpp:83-91 | `getNextReadPosition` then returns the given position, unclamped and unwrapped |
| `Engine.LoopingAudioSource.GetTotalLength` | src/LoopingAudioSource.cpp:93-96 | the upstream's total length, regardless of the looping flag |
| `Engine.LoopingAudioSource.GetNextAudioBlock` | src/LoopingAudioSource.cpp:32-81 | the upstream log grows by exactly the reads of `Block` for the stored fields and the old position, and the stored position becomes `Block`'s end position; the upstream's own position is the one it reports after the last read, or unchanged when the block issues no read |
| `RangeNormalisation.NormaliseLoopRangeAsWritten` | src/MainComponent.cpp:109-113 | an end that is negative or past `totalSamples` becomes `totalSamples`, otherwise it is kept; then a start that is negative or `>=` the new end becomes 0, otherwise it is kept |
| `RangeNormalisation.AsWrittenZeroEndRejected` | src/MainComponent.cpp:110-117 | as written, the request `(0, 0)` on a 1000-sample file becomes `(0, 0)`, which fails the `setLoopRange` range check |
| `RangeNormalisation.AsWrittenAcceptedUnlessZeroEnd` | src/SoundLayer.cpp:84-92 | as written, for `totalSamples > 0` and a requested end other than 0 the result satisfies `0 <= start < end <= totalSamples` |
| `RangeNormalisation.AsWrittenEmptyFileRange` | src/MainComponent.cpp:109-113 | as written, for `totalSamples == 0` the result is `(0, 0)`, a range the engine forwards instead of looping |
| `RangeNormalisation.AsWrittenValidRequestKept` | src/MainComponent.cpp:110-113 | as written, a request with `0 <= start < end <= totalSamples` is returned unchanged |
| `RangeNormalisation.AsWrittenWholeFileRange` | src/MainComponent.cpp:93 | as written, the chooser's request `(0, -1)` normalises to the whole file `(0, totalSamples)` |
| `RangeNormalisation.AsWrittenIdempotent` | src/MainComponent.cpp:109-113 | as written, normalising a normalised range with the same `totalSamples` changes nothing |
| `RangeNormalisation.NormaliseLoopRange` | src/SoundLayer.cpp:84-88 | corrected normalisation: an end that is not positive or past `totalSamples` becomes `totalSamples`; then a start that is negative or not before the new end becomes 0 |
| `RangeNormalisation.AgreesWithAsWritten` | src/SoundLayer.cpp:85-88 | the corrected and the as-written normalisation agree for every request whose end is not 0 |
| `RangeNormalisation.NormalisedRangeAccepted` | src/LoopingAudioSource.cpp:12 | corrected normalisation: for `totalSamples > 0` the normalised range satisfies `0 <= start < end <= totalSamples`, the `setLoopRange` precondition |
| `RangeNormalisation.EmptyFileRange` | src/SoundLayer.cpp:84-88 | corrected normalisation: for `totalSamples == 0` the result is `(0, 0)`, a range the engine forwards instead of looping |
| `RangeNormalisation.ValidRequestKept` | src/SoundLayer.cpp:85-88 | corrected normalisation: a request with `0 <= start < end <= totalSamples` is returned unchanged |
| `RangeNormalisation.WholeFileRange` | src/MainComponent.cpp:93 | corrected normalisation: the chooser's request `(0, -1)` normalises to the whole file `(0, totalSamples)` |
| `RangeNormalisation.NormaliseIdempotent` | src/SoundLayer.cpp:84-88 | corrected normalisation: normalising a normalised range with the same `totalSamples` changes nothing |
| `MainApp.MainComponent.LoadAudioFile` | src/MainComponent.cpp:96-118 | the old chain is torn down; with no reader nothing is built; otherwise a fresh reader source and a non-owning engine over it hold the range as the code normalises it (`NormaliseLoopRangeAsWritten`) with looping on, and the range passes the range check whenever the file is non-empty and the requested end is not 0 |
| `MainApp.MainComponent.constructor` | src/MainComponent.h:27-28 | a new component has no reader source and no engine |
| `MainApp.MainComponent.LoadFileFromChooser` | src/MainComponent.cpp:87-94 | a choice that is not an existing file changes nothing; otherwise the file is loaded as `loadAudioFile(file, 0, -1)` loads it: a fresh reader source and a non-owning engine over it at position 0, looping over `(0, totalSamples)` |
| `Layer.Limit` | src/CrossfadeCurveEditor.cpp:8-9 | `jlimit`: the value clamped to `[lo, hi]`, kept when inside the interval |
| `Layer.CurveEditor.constructor` | src/CrossfadeCurveEditor.h:23 | the editor's control point starts at (0.25, 0.75) |
| `Layer.CurveEditor.GetControlPointX` | src/CrossfadeCurveEditor.h:11 | the stored control-point x coordinate |
| `Layer.CurveEditor.GetControlPointY` | src/CrossfadeCurveEditor.h:12 | the stored control-point y coordinate |
| `Layer.CurveEditor.SetControlPoint` | src/CrossfadeCurveEditor.cpp:6-11 | each coordinate is stored clamped to `[0.05, 0.95]` |
| `Layer.SoundLayer.constructor` | src/SoundLayer.h:38-51 | a new layer has no reader source, no engine, sample rate 0 and a fresh curve editor at its default point |
| `Layer.SoundLayer.LoadFile` | src/SoundLayer.cpp:70-113 | returns true exactly when a reader exists. On failure the chain is torn down and nothing else changes. On success a fresh engine holds the range as the code normalises it, looping on, and the given crossfade count and curve; the editor holds the clamped curve point and the sample rate is the reader's; the range passes the range check when the file is non-empty and the requested end is not 0 |
| `Layer.SoundLayer.IsFileLoaded` | src/SoundLayer.h:27 | true exactly while the layer holds a reader source |
| `Layer.SoundLayer.GetCrossfadeSamples` | src/SoundLayer.cpp:115-120 | 0 with no engine, the engine's crossfade count otherwise |
| `Layer.SoundLayer.GetCrossfadeCurveX` | src/SoundLayer.cpp:122-127 | the editor's control-point x with no engine, the engine's stored curve x otherwise |
| `Layer.SoundLayer.GetCrossfadeCurveY` | src/SoundLayer.cpp:129-134 | the editor's control-point y with no engine, the engine's stored curve y otherwise |
| `Scenarios.ContinuousLoop` | src/LoopingAudioSource.cpp:32-96 | looping `[0, 50000)`: after 50000 samples the position is 0, after 25000 more it is 25000, and the length reported while looping is the file's |
| `Scenarios.InvalidRangeForwards` | src/LoopingAudioSource.cpp:47-53 | after `setLoopRange(100, 50)` a block is forwarded: the upstream receives exactly one read, at position 0 over the unchanged request; the new position is the upstream's, and the length is the upstream's |
| `Scenarios.ZeroEndPresetForwards` | src/MainComponent.cpp:109-118 | loading a 1000-sample file with the stored range `(0, 0)` gives the engine the empty range `[0, 0)`, which fails the range check, and the engine forwards instead of looping |
| `Scenarios.FailedLoadFallsBack` | src/SoundLayer.cpp:78-134 | a freshly constructed layer whose reader cannot be created reports crossfade 0 and the editor's default curve point (0.25, 0.75) |
| `Scenarios.FailedReloadKeepsEditorPoint` | src/SoundLayer.cpp:73-80 | for any layer, a load whose reader cannot be created reports crossfade 0 and the curve point the editor held before the load, since the failed load does not touch the editor |
| `Scenarios.ReloadFailureAfterLoad` | src/SoundLayer.cpp:73-134 | a layer loaded with curve (0.5, 0.5) whose reload then fails still reports (0.5, 0.5) |
| `Scenarios.LoadedLayerReports` | src/SoundLayer.cpp:92-134 | a layer that loaded a file reports the crossfade count and curve it was given |

## Left out

- Crossfade blending, the head cache, the fade lookup table and Bezier solving are left out. Their members are declared in src/LoopingAudioSource.h, but no definitions exist in the source, and they are floating-point.
- `Engine.LoopingAudioSource.SetCrossfadeSamples` is modelled as a plain store, because its definition is not in the source. A clamp it might apply is not modelled.
- `Engine.LoopingAudioSource.SetCrossfadeCurve` is modelled as a plain store, because its definition is not in the source. A clamp it might apply is not modelled.
- Audio sample values are left out: the model tracks where each sample comes from, as an upstream position, and not its value. Channel counts and buffers are left out for the same reason.
- The upstream reader source's internals (`AudioFormatReaderSource`) are left out: it is an external collaborator. The position it reports after a read is the parameter `upstreamLandsAt`, one value for every read of a block. Only the forwarding paths observe that value.
- Integer widths are not modelled. Positions are unbounded integers. The `static_cast<int>(lEnd - pos)` is covered by a precondition of `GetNextAudioBlock` on the looping path: the loop length must fit in an `int`. Overflow of `destOffset` or of 64-bit positions is not modelled.
- `std::atomic` fields and reads torn between the GUI thread and the audio thread are left out: the fields are plain single-threaded state.
- The debug-only `jassert` in `setLoopRange` is not a precondition: release builds store any range. It appears as the predicate `RangeAccepted`. The loaders are proved to meet it for non-empty files unless the requested end is 0 (see Findings).
- `float` and `double` values (the curve point, the sample rate) are modelled as exact `real`s. `Layer.Limit` clamps to the exact reals 0.05 and 0.95, not to the nearest `float` values `0.05f` and `0.95f`, and no rounding is modelled.
- `Layer.SoundLayer.LoadFile` takes every argument explicitly. The default arguments of `SoundLayer::loadFile` (src/SoundLayer.h:14-15: crossfade 0, curve (0.25, 0.75)) are not modelled; a caller relying on them passes those values.
- `prepareToPlay` and `releaseResources` only forward to the upstream, which is a collaborator, so they are left out.
- Ownership of the upstream (`deleteWhenRemoved`) is kept as a flag only. Destruction is not modelled.
- I/O and UI are left out: see the list below.
  - preset save and load (JSON and file choosers);
  - the transport source, the device manager and the read-ahead thread;
  - the waveform display;
  - the buttons, the sliders and the volume;
  - the millisecond-to-sample conversions;
  - the file path stored after a load;
  - the application boilerplate.
- src/FilteredAudioSource.cpp is left out as floating-point DSP. The curve editor's painting, mouse handling and `evalBezierY` are left out as float UI code.

## Findings

| source | as written | input that shows it | evidently intended | confidence | as-written member | corrected member |
|---|---|---|---|---|---|---|
| src/MainComponent.cpp:110-113 (also src/SoundLayer.cpp:85-88) | the end clamp replaces only an end below 0 or above `totalSamples`, so it keeps a requested end of 0, so a non-empty file gets the empty range `(0, 0)`, which fails `setLoopRange`'s range check and silently disables looping. A preset whose `loopEnd` is 0 or missing passes such an end. | `loadAudioFile(file, 0, 0)` on a file of 1000 samples | a non-empty file always gets a range with `0 <= start < end <= totalSamples`, so an end of 0 is treated like an unset end | medium, not executed | `RangeNormalisation.AsWrittenZeroEndRejected` | `RangeNormalisation.NormalisedRangeAccepted` |

The loaders in this model (`MainApp.MainComponent.LoadAudioFile`,
`Layer.SoundLayer.LoadFile`) use `NormaliseLoopRangeAsWritten`, the code as
written; `Scenarios.ZeroEndPresetForwards` shows the consequence at the
loader. The corrected `NormaliseLoopRange` is stated and proved beside it.
It differs from the code only for a requested end of 0
(`AgreesWithAsWritten`).
