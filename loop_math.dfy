/**
 * The sample-exact position arithmetic of one rendered block of the looping
 * source, as values: which upstream reads a block issues and which play
 * position it leaves behind.  The engine class in module Engine is proved to
 * issue exactly these reads.
 */
module LoopMath {
  import opened Wrappers

  /** One upstream read: the upstream's read position, the destination offset
      the samples are written to, and how many samples are read. */
  datatype Read = Read(position: int, destOffset: int, count: int)

  /** The reads a block issues, in order, and the play position stored after it. */
  datatype Plan = Plan(calls: seq<Read>, endPos: int)

  /** `juce::jmin` on two integers. */
  function Min(a: int, b: int): (m: int)
    ensures m <= a && m <= b
    ensures m == a || m == b
  {
    if b < a then b else a
  }

  /** The range check `setLoopRange` makes in debug builds. */
  predicate RangeAccepted(startSample: int, endSample: int): (ok: bool)
    ensures ok ==> !IsForwarding(true, startSample, endSample)
  {
    0 <= startSample && startSample < endSample
  }

  /** The block is handed to the upstream unchanged: looping is off, or the
      stored range is degenerate (an empty or inverted range, or an end that
      is not positive). */
  predicate IsForwarding(looping: bool, loopStart: int, loopEnd: int): (f: bool)
    ensures !f <==> looping && loopStart < loopEnd && 0 < loopEnd
  {
    !looping || loopEnd <= loopStart || loopEnd <= 0
  }

  /** The start position of a looping block: a position inside the loop is
      kept, any other is replaced by the loop start (not folded modulo the
      loop length). */
  function WrapIn(pos: int, loopStart: int, loopEnd: int): (p: int)
    requires loopStart < loopEnd
    ensures loopStart <= p < loopEnd
    ensures loopStart <= pos < loopEnd ==> p == pos
    ensures p != pos ==> p == loopStart
  {
    if pos >= loopEnd || pos < loopStart then loopStart else pos
  }

  /** A read that reads at least one sample and stays inside `[loopStart, loopEnd)`. */
  predicate ChunkInLoop(c: Read, loopStart: int, loopEnd: int)
  {
    1 <= c.count && loopStart <= c.position && c.position + c.count <= loopEnd
  }

  /** The chunking loop of a looping block, started at `pos` with `remaining`
      samples still to deliver at destination offset `destOffset`.  Each chunk
      reads up to the loop end; reaching the loop end wraps to the loop start. */
  function LoopPlan(pos: int, destOffset: int, remaining: int, loopStart: int, loopEnd: int): (r: Plan)
    requires loopStart <= pos < loopEnd
    ensures loopStart <= r.endPos < loopEnd
    ensures forall i :: 0 <= i < |r.calls| ==> ChunkInLoop(r.calls[i], loopStart, loopEnd)
    decreases if remaining > 0 then remaining else 0
  {
    if remaining <= 0 then Plan([], pos)
    else
      var n := Min(remaining, loopEnd - pos);
      var next := if pos + n >= loopEnd then loopStart else pos + n;
      var rest := LoopPlan(next, destOffset + n, remaining - n, loopStart, loopEnd);
      Plan([Read(pos, destOffset, n)] + rest.calls, rest.endPos)
  }

  /** What one call of the block renderer does, given the stored fields, the
      requested destination extent and the position the upstream reports
      after a forwarded read (`upstreamLandsAt`, not determined by this model). */
  function Block(looping: bool, loopStart: int, loopEnd: int, pos: int,
                 startSample: int, numSamples: int, upstreamLandsAt: int): (o: Plan)
    ensures IsForwarding(looping, loopStart, loopEnd) ==>
              o == Plan([Read(pos, startSample, numSamples)], upstreamLandsAt)
    ensures !IsForwarding(looping, loopStart, loopEnd) ==> loopStart <= o.endPos < loopEnd
    ensures !IsForwarding(looping, loopStart, loopEnd) ==>
              forall i :: 0 <= i < |o.calls| ==> ChunkInLoop(o.calls[i], loopStart, loopEnd)
  {
    if IsForwarding(looping, loopStart, loopEnd) then
      Plan([Read(pos, startSample, numSamples)], upstreamLandsAt)
    else
      LoopPlan(WrapIn(pos, loopStart, loopEnd), startSample, numSamples, loopStart, loopEnd)
  }

  /** The reads fill `[offset, offset + total)` one after the other, without
      gaps or overlaps. */
  predicate Tiles(calls: seq<Read>, offset: int, total: int)
    decreases |calls|
  {
    if calls == [] then total == 0
    else
      calls[0].destOffset == offset && 1 <= calls[0].count &&
      Tiles(calls[1..], offset + calls[0].count, total - calls[0].count)
  }

  /** The number of samples the calls deliver. */
  function TotalCount(calls: seq<Read>): int
  {
    if calls == [] then 0 else calls[0].count + TotalCount(calls[1..])
  }

  /** The upstream position whose sample ends up at destination index `d`
      after the reads run in order (a later read overwrites an earlier one),
      or None when no read writes `d`. */
  function WrittenAt(calls: seq<Read>, d: int): Option<int>
  {
    if calls == [] then None
    else
      var later := WrittenAt(calls[1..], d);
      if later.Some? then later
      else if calls[0].destOffset <= d < calls[0].destOffset + calls[0].count
      then Some(calls[0].position + (d - calls[0].destOffset))
      else None
  }

  /** The sample at offset `k` of an endless repetition of `[loopStart, loopEnd)`
      that starts at `pos`. */
  function LoopPosition(pos: int, k: int, loopStart: int, loopEnd: int): int
    requires loopStart < loopEnd
  {
    loopStart + (pos - loopStart + k) % (loopEnd - loopStart)
  }

  // ---------------------------------------------------------------------------
  // Arithmetic helpers

  lemma ModOfSmall(x: int, m: int)
    requires 0 <= x < m
    ensures x % m == x
  {
  }

  lemma MulAtLeast(d: int, m: int)
    requires 1 <= d && 0 < m
    ensures d * m >= m
  {
    var k := d - 1;
    assert d * m == k * m + m;
  }

  /** Euclidean division leaves a unique remainder. */
  lemma ModUnique(y: int, q: int, r: int, m: int)
    requires 0 < m && 0 <= r < m
    requires y == q * m + r
    ensures y % m == r
  {
    var q', r' := y / m, y % m;
    assert y == q' * m + r';
    var d := q - q';
    assert d * m == q * m - q' * m;
    assert d * m == r' - r;
    if d >= 1 {
      MulAtLeast(d, m);
    } else if d <= -1 {
      MulAtLeast(-d, m);
    }
  }

  lemma ModAddPeriod(x: int, m: int)
    requires 0 < m
    ensures (x + m) % m == x % m
  {
    ModUnique(x + m, x / m + 1, x % m, m);
  }

  /** One chunk of length `n` from `pos` followed by the rest amounts to moving
      `n` samples along the loop. */
  lemma StepAlongLoop(pos: int, n: int, k: int, loopStart: int, loopEnd: int)
    requires loopStart <= pos < loopEnd
    requires 1 <= n <= loopEnd - pos
    ensures var next := if pos + n >= loopEnd then loopStart else pos + n;
            LoopPosition(next, k - n, loopStart, loopEnd) == LoopPosition(pos, k, loopStart, loopEnd)
  {
    if pos + n >= loopEnd {
      ModAddPeriod(k - n, loopEnd - loopStart);
    }
  }

  // ---------------------------------------------------------------------------
  // Properties of the looping path

  /** The chunks tile the destination contiguously from `destOffset` and
      deliver exactly the requested number of samples. */
  lemma {:induction false} PlanTiles(pos: int, destOffset: int, remaining: int, loopStart: int, loopEnd: int)
    requires loopStart <= pos < loopEnd
    ensures Tiles(LoopPlan(pos, destOffset, remaining, loopStart, loopEnd).calls,
                  destOffset, if remaining > 0 then remaining else 0)
    decreases if remaining > 0 then remaining else 0
  {
    if remaining > 0 {
      var n := Min(remaining, loopEnd - pos);
      var next := if pos + n >= loopEnd then loopStart else pos + n;
      PlanTiles(next, destOffset + n, remaining - n, loopStart, loopEnd);
      var r := LoopPlan(pos, destOffset, remaining, loopStart, loopEnd);
      assert r.calls[1..] == LoopPlan(next, destOffset + n, remaining - n, loopStart, loopEnd).calls;
    }
  }

  /** Tiling reads deliver exactly the tiled number of samples. */
  lemma {:induction false} TilesCount(calls: seq<Read>, offset: int, total: int)
    requires Tiles(calls, offset, total)
    ensures TotalCount(calls) == total
    decreases |calls|
  {
    if calls != [] {
      TilesCount(calls[1..], offset + calls[0].count, total - calls[0].count);
    }
  }

  /** The position a looping block leaves behind is the start position moved
      `remaining` samples along the loop. */
  lemma {:induction false} PlanEndPos(pos: int, destOffset: int, remaining: int, loopStart: int, loopEnd: int)
    requires loopStart <= pos < loopEnd
    requires 0 <= remaining
    ensures LoopPlan(pos, destOffset, remaining, loopStart, loopEnd).endPos
            == LoopPosition(pos, remaining, loopStart, loopEnd)
    decreases remaining
  {
    if remaining == 0 {
      ModOfSmall(pos - loopStart, loopEnd - loopStart);
    } else {
      var n := Min(remaining, loopEnd - pos);
      var next := if pos + n >= loopEnd then loopStart else pos + n;
      PlanEndPos(next, destOffset + n, remaining - n, loopStart, loopEnd);
      StepAlongLoop(pos, n, remaining, loopStart, loopEnd);
    }
  }

  /** Sample-exact looping: destination index `destOffset + k`, for every `k`
      below the request, receives the upstream sample `k` steps along the loop
      from the start position, and nothing outside the request is written. */
  lemma {:induction false} PlanWritesLoop(pos: int, destOffset: int, remaining: int,
                                          loopStart: int, loopEnd: int, d: int)
    requires loopStart <= pos < loopEnd
    ensures WrittenAt(LoopPlan(pos, destOffset, remaining, loopStart, loopEnd).calls, d)
            == if destOffset <= d < destOffset + remaining
               then Some(LoopPosition(pos, d - destOffset, loopStart, loopEnd))
               else None
    decreases if remaining > 0 then remaining else 0
  {
    if remaining > 0 {
      var n := Min(remaining, loopEnd - pos);
      var next := if pos + n >= loopEnd then loopStart else pos + n;
      var r := LoopPlan(pos, destOffset, remaining, loopStart, loopEnd);
      var rest := LoopPlan(next, destOffset + n, remaining - n, loopStart, loopEnd);
      assert r.calls[0] == Read(pos, destOffset, n);
      assert r.calls[1..] == rest.calls;
      PlanWritesLoop(next, destOffset + n, remaining - n, loopStart, loopEnd, d);
      if destOffset <= d < destOffset + n {
        ModOfSmall(pos - loopStart + (d - destOffset), loopEnd - loopStart);
      } else if destOffset + n <= d < destOffset + remaining {
        StepAlongLoop(pos, n, d - destOffset, loopStart, loopEnd);
      }
    }
  }

  /** Two consecutive looping blocks end where one block of their combined
      length ends: rendering in blocks does not disturb the loop phase. */
  lemma {:induction false} PlanEndPosSplits(pos: int, destOffset: int, a: int, b: int,
                                            loopStart: int, loopEnd: int)
    requires loopStart <= pos < loopEnd
    requires 0 <= a && 0 <= b
    ensures var mid := LoopPlan(pos, destOffset, a, loopStart, loopEnd).endPos;
            LoopPlan(mid, destOffset + a, b, loopStart, loopEnd).endPos
            == LoopPlan(pos, destOffset, a + b, loopStart, loopEnd).endPos
  {
    var m := loopEnd - loopStart;
    var mid := LoopPlan(pos, destOffset, a, loopStart, loopEnd).endPos;
    PlanEndPos(pos, destOffset, a, loopStart, loopEnd);
    PlanEndPos(mid, destOffset + a, b, loopStart, loopEnd);
    PlanEndPos(pos, destOffset, a + b, loopStart, loopEnd);
    ModOfRemainderPlus(pos - loopStart + a, b, m);
  }

  /** Adding after reducing modulo `m` gives the same remainder as adding first. */
  lemma ModOfRemainderPlus(x: int, b: int, m: int)
    requires 0 < m
    ensures (x % m + b) % m == (x + b) % m
  {
    var q, r := x / m, x % m;
    var q2, r2 := (r + b) / m, (r + b) % m;
    assert x == q * m + r;
    assert r + b == q2 * m + r2;
    assert (q + q2) * m == q * m + q2 * m;
    ModUnique(x + b, q + q2, r2, m);
  }

  // ---------------------------------------------------------------------------
  // Properties of one block

  /** On the looping path the block starts at the normalised position, its
      reads tile the request, each read lies in the loop, and the stored
      position is the normalised start moved `numSamples` along the loop. */
  lemma LoopingBlock(looping: bool, loopStart: int, loopEnd: int, pos: int,
                     startSample: int, numSamples: int, upstreamLandsAt: int)
    requires !IsForwarding(looping, loopStart, loopEnd)
    requires 0 <= numSamples
    ensures var o := Block(looping, loopStart, loopEnd, pos, startSample, numSamples, upstreamLandsAt);
            var p0 := WrapIn(pos, loopStart, loopEnd);
            Tiles(o.calls, startSample, numSamples) &&
            TotalCount(o.calls) == numSamples &&
            (o.calls != [] ==> o.calls[0].position == p0) &&
            o.endPos == LoopPosition(p0, numSamples, loopStart, loopEnd)
  {
    var p0 := WrapIn(pos, loopStart, loopEnd);
    PlanTiles(p0, startSample, numSamples, loopStart, loopEnd);
    TilesCount(LoopPlan(p0, startSample, numSamples, loopStart, loopEnd).calls, startSample, numSamples);
    PlanEndPos(p0, startSample, numSamples, loopStart, loopEnd);
  }

  /** A full loop length read from the loop start is one read of the whole
      loop and leaves the position at the loop start again. */
  lemma ExactWrap(loopStart: int, loopEnd: int, startSample: int, upstreamLandsAt: int)
    requires 0 < loopEnd && loopStart < loopEnd
    ensures Block(true, loopStart, loopEnd, loopStart, startSample, loopEnd - loopStart, upstreamLandsAt)
            == Plan([Read(loopStart, startSample, loopEnd - loopStart)], loopStart)
  {
    var r := LoopPlan(loopStart, startSample + (loopEnd - loopStart), 0, loopStart, loopEnd);
    assert r == Plan([], loopStart);
  }

  /** A request of no samples performs no read and only stores the normalised
      position. */
  lemma EmptyRequest(looping: bool, loopStart: int, loopEnd: int, pos: int,
                     startSample: int, upstreamLandsAt: int)
    requires !IsForwarding(looping, loopStart, loopEnd)
    ensures Block(looping, loopStart, loopEnd, pos, startSample, 0, upstreamLandsAt)
            == Plan([], WrapIn(pos, loopStart, loopEnd))
  {
  }

  /** An out-of-range position restarts the loop at its start, where a fold
      modulo the loop length would land elsewhere: position 12 in the loop
      `[0, 10)` starts reading at 0, not at 2. */
  lemma ResetIsNotFold()
    ensures Block(true, 0, 10, 12, 0, 1, 0).calls == [Read(0, 0, 1)]
    ensures LoopPosition(12, 0, 0, 10) == 2
  {
    var r := LoopPlan(1, 1, 0, 0, 10);
    assert r == Plan([], 1);
  }

  /** A fresh engine stores the range `[0, 0)` with looping on, so its first
      block is forwarded as a single read at position 0. */
  lemma FreshEngineForwards(startSample: int, numSamples: int, upstreamLandsAt: int)
    ensures Block(true, 0, 0, 0, startSample, numSamples, upstreamLandsAt)
            == Plan([Read(0, startSample, numSamples)], upstreamLandsAt)
  {
  }
}
