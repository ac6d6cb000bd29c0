/** The two-window estimate of how large a device's chunks are (HwClockPacer and HwPositionTracker, which has no mixer
    period), against the full history of what was observed. */
module ChunkEstimator {
  import opened Arithmetic

  /** One observation: when, and by how many frames the report exceeded smooth play. */
  datatype Seen = Seen(at: real, excess: nat)

  function Largest(history: seq<Seen>): (m: nat)
    decreases |history|
  {
    if history == [] then 0
    else
      var before, last := Largest(history[..|history| - 1]), history[|history| - 1].excess;
      if last > before then last else before
  }

  /** Some observation is the largest, and none is larger. */
  lemma {:induction false} LargestIsMaximum(history: seq<Seen>) returns (at: nat)
    requires history != []
    ensures at < |history| && history[at].excess == Largest(history)
    ensures forall k :: 0 <= k < |history| ==> history[k].excess <= Largest(history)
    decreases |history|
  {
    at := |history| - 1;
    var before := history[..at];
    if before != [] {
      var b := LargestIsMaximum(before);
      assert forall k :: 0 <= k < at ==> before[k] == history[k];
      if Largest(before) >= history[at].excess { at := b; }
    }
  }

  lemma {:induction false} LargestJoins(a: seq<Seen>, b: seq<Seen>)
    ensures Largest(a + b) == if Largest(a) > Largest(b) then Largest(a) else Largest(b)
    decreases |b|
  {
    if b == [] {
      assert a + b == a;
    } else {
      assert (a + b)[..|a + b| - 1] == a + b[..|b| - 1];
      LargestJoins(a, b[..|b| - 1]);
    }
  }

  // ---------------------------------------------------------------- rounding

  /** roundChunk(): up to a block, small values to none. */
  function RoundChunk(c: nat, block: nat): (r: int)
    requires block > 0
  {
    if c < block / 2 then 0 else (c + block - 1) / block * block
  }

  /** A rounded chunk is the least number of whole blocks that holds it, or none for less than half a block. */
  lemma RoundChunkIs(c: nat, block: nat)
    requires block > 0
    ensures exists n: nat :: RoundChunk(c, block) == n * block
    ensures if c < block / 2 then RoundChunk(c, block) == 0 else c <= RoundChunk(c, block) < c + block
  {
    CeilingQuotient(c, block);
    var n := (c + block - 1) / block;
    assert (n - 1) * block == n * block - block;
    assert 0 * block == 0;
    assert RoundChunk(c, block) == (if c < block / 2 then 0 else n) * block;
  }

  lemma RoundChunkGrows(c: nat, d: nat, block: nat)
    requires block > 0 && c <= d
    ensures RoundChunk(c, block) <= RoundChunk(d, block)
  {
    CeilingQuotient(c, block);
    CeilingQuotient(d, block);
    var m, n := (c + block - 1) / block, (d + block - 1) / block;
    if m > n {
      MulLe(n, m - 1, block);
    } else {
      MulLe(m, n, block);
    }
    MulLe(0, n, block);
  }

  // ---------------------------------------------------------------- the estimator

  class Estimator {
    const block: nat
    const mixerPeriod: nat
    var windowStart: real
    var windowMax: nat
    var previousMax: nat
    var chunk: int
    ghost var history: seq<Seen>
    ghost var previous: nat   // where the previous window begins in the history
    ghost var current: nat    // where the current one does

    /** The two maxima are those of the two windows. */
    ghost predicate Windows()
      reads this
    {
      && previous <= current <= |history|
      && windowMax == Largest(history[current..]) && previousMax == Largest(history[previous..current])
      && (forall k :: 0 <= k < previous ==> history[k].at <= windowStart - 1.0)
      && (forall k :: 0 <= k < current ==> history[k].at <= windowStart)
      && (forall k :: current <= k < |history| ==> history[k].at >= windowStart)
    }

    ghost predicate Valid()
      reads this
    {
      block > 0 && Windows() && chunk == RoundChunk(Max(Learned(), 2 * mixerPeriod), block)
    }

    /** The learned maximum, before rounding. */
    function Learned(): nat
      reads this
    {
      Max(windowMax, previousMax)
    }

    constructor (block: nat, mixerPeriod: nat, start: real)
      requires block > 0
      ensures Valid() && history == [] && windowStart == start && this.block == block && this.mixerPeriod == mixerPeriod
    {
      this.block, this.mixerPeriod := block, mixerPeriod;
      windowStart, windowMax, previousMax := start, 0, 0;
      chunk := RoundChunk(2 * mixerPeriod, block);
      history, previous, current := [], 0, 0;
    }

    /** learnChunk(). The learned maximum is the largest excess since the previous window began, which is more than a
        second ago unless that window is the first one: so at least every excess of the last second. */
    method LearnChunk(now: real, excess: nat)
      requires Valid() && windowStart <= now
      requires forall k :: 0 <= k < |history| ==> history[k].at <= now
      modifies this
      ensures Valid() && history == old(history) + [Seen(now, excess)]
      ensures Learned() == Largest(history[previous..])
      ensures previous > 0 ==> history[previous - 1].at <= now - 1.0
      ensures forall k :: 0 <= k < |history| && history[k].at > now - 1.0 ==> history[k].excess <= Learned()
      ensures windowStart == if now - old(windowStart) >= 1.0 then now else old(windowStart)
      ensures previous == if now - old(windowStart) >= 1.0 then old(current) else old(previous)
    {
      Observe(now, excess);
      LargestSinceWindow(history, previous, current, windowStart, now);
      chunk := RoundChunk(Max(Max(windowMax, previousMax), 2 * mixerPeriod), block);
    }

    /** The two windows take in one observation. */
    method Observe(now: real, excess: nat)
      requires Windows() && windowStart <= now
      requires forall k :: 0 <= k < |history| ==> history[k].at <= now
      modifies this
      ensures Windows() && history == old(history) + [Seen(now, excess)] && current < |history|
      ensures windowStart == if now - old(windowStart) >= 1.0 then now else old(windowStart)
      ensures previous == if now - old(windowStart) >= 1.0 then old(current) else old(previous)
    {
      if now - windowStart >= 1.0 {
        previousMax := windowMax;
        windowMax := 0;
        windowStart := now;
        assert history[current..|history|] == history[current..];
        previous, current := current, |history|;
      }
      if excess > windowMax { windowMax := excess; }
      ghost var x := Seen(now, excess);
      Extended(history, previous, current, x);
      history := history + [x];
    }
  }

  lemma Extended(history: seq<Seen>, previous: nat, current: nat, x: Seen)
    requires previous <= current <= |history|
    ensures var h := history + [x];
            && h[previous..current] == history[previous..current]
            && Largest(h[current..]) ==
               Max(x.excess, Largest(history[current..]))
  {
    var h := history + [x];
    assert h[current..][..|h[current..]| - 1] == history[current..];
  }

  lemma LargestSinceWindow(history: seq<Seen>, previous: nat, current: nat, start: real, now: real)
    requires previous <= current < |history|
    requires forall k :: 0 <= k < previous ==> history[k].at <= start - 1.0
    requires start <= now
    ensures var a, b := Largest(history[previous..current]), Largest(history[current..]);
            Largest(history[previous..]) == Max(b, a)
    ensures forall k :: 0 <= k < |history| && history[k].at > now - 1.0 ==> history[k].excess <= Largest(history[previous..])
  {
    var since := history[previous..];
    assert since == history[previous..current] + history[current..];
    LargestJoins(history[previous..current], history[current..]);
    var _ := LargestIsMaximum(since);
    forall k | previous <= k < |history| ensures history[k].excess <= Largest(since) {
      assert since[k - previous] == history[k];
    }
  }
}
