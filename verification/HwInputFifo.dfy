/** HwInputFifo: frames of a device on its own clock, resampled into a circular buffer and read one block per tick. The
    resampler and the control loop are used as DriftResampler and DriftControl specify them. */
module HwInputFifo {
  import opened Arithmetic
  import opened Circular
  import opened DriftResampler
  import DriftControl
  import opened Sequences

  function Deadband(prime: nat): real {
    if prime as real / 5.0 > 96.0 then prime as real / 5.0 else 96.0
  }

  /** A backlog within the deadband of the control loop's setpoint. */
  predicate InBand(backlog: real, prime: nat, block: nat) {
    DriftControl.Abs(backlog - (prime + block) as real) < Deadband(prime)
  }

  function DriftParams(prime: nat): DriftControl.Params {
    DriftControl.Params(0.125, 2.0, 1.0, 10000.0, Deadband(prime), 0.25)
  }

  // ---------------------------------------------------------------- the packet clock

  /** The smoothed time of the newest delivered frame, and device seconds per frame. */
  datatype Clock = Clock(haveTime: bool, newestSec: real, framePeriod: real)

  /** track(). */
  function Tracked(c: Clock, rate: real, frames: nat, packetSec: real): Clock
    requires rate > 0.0
  {
    if frames == 0 then c
    else if !c.haveTime then Clock(true, packetSec, 1.0 / rate)
    else
      var interval := frames as real * c.framePeriod;
      var w := 2.0 * 3.14159265358979323846 * 1.0 * interval;
      var predicted := c.newestSec + interval;
      var e := packetSec - predicted;
      c.(newestSec := predicted + 1.41421356237 * w * e, framePeriod := c.framePeriod + w * w * e / frames as real)
  }

  /** A packet that comes exactly when predicted leaves the frame period as it is and becomes the newest time: between
      equal clocks the backlog shows no packet. */
  lemma SteadyPackets(c: Clock, rate: real, frames: nat, packetSec: real)
    requires rate > 0.0 && c.haveTime && frames > 0
    requires packetSec == c.newestSec + frames as real * c.framePeriod
    ensures Tracked(c, rate, frames, packetSec) == c.(newestSec := packetSec)
  {
    var interval := frames as real * c.framePeriod;
    var w := 2.0 * 3.14159265358979323846 * 1.0 * interval;
    TimesZero(1.41421356237 * w);
    TimesZero(w * w);
  }

  lemma TimesZero(x: real)
    ensures x * 0.0 == 0.0
  {
  }

  /** Frames queued plus frames the device has made but not delivered. */
  function Backlog(count: nat, c: Clock, now: real): (b: real)
    requires c.framePeriod > 0.0
    ensures b >= count as real
  {
    if c.haveTime && now > c.newestSec then
      var d := now - c.newestSec;
      Divides(d, c.framePeriod);
      count as real + d / c.framePeriod
    else count as real
  }

  // ---------------------------------------------------------------- what a read decides

  /** Priming is over: enough backlog, and a block to deliver. */
  predicate Starts(primed: bool, count: nat, backlog: real, prime: nat, need: nat) {
    !primed && backlog >= (prime + need) as real && count >= need
  }

  /** What the start drops, to begin with the backlog exactly at the target. */
  function StartCut(count: nat, backlog: real, prime: nat, need: nat): (n: nat)
    requires backlog >= (prime + need) as real && count >= need
    ensures n <= count - need
  {
    Min((backlog - (prime + need) as real).Floor, count - need)
  }

  /** What a queue far above the target drops. */
  function FarCut(count: nat, prime: nat, period: nat, need: nat): (n: nat)
    ensures n <= count && (n > 0 ==> count - n >= need)
  {
    if count > prime + period + 8 * need then count - (prime + need) else 0
  }

  /** What a read drops when it starts. */
  function AtStart(primed: bool, count: nat, backlog: real, prime: nat, need: nat): (n: nat)
    ensures n <= count && (n > 0 ==> count - n >= need)
  {
    if Starts(primed, count, backlog, prime, need) then StartCut(count, backlog, prime, need) else 0
  }

  /** What is left of the queue after both cuts. */
  function AfterCuts(primed: bool, count: nat, backlog: real, prime: nat, period: nat, need: nat): (c: nat)
    ensures Starts(primed, count, backlog, prime, need) ==> c >= need
  {
    var c: nat := count - AtStart(primed, count, backlog, prime, need);
    if primed || Starts(primed, count, backlog, prime, need) then c - FarCut(c, prime, period, need) else c
  }

  function BlockSeconds(need: nat, rate: real): (dt: real)
    requires rate > 0.0
    ensures dt == need as real / rate && dt >= 0.0
  {
    Divides(need as real, rate);
    need as real / rate
  }

  /** The target after a starved read. */
  function Grown(prime: nat, period: nat, maxPrime: nat): nat {
    if prime < maxPrime then Min(prime + Max(prime / 4, period), maxPrime) else prime
  }

  /** Every growth but the last adds at least a period: there are at most ceiling((maxPrime - first) / period). */
  ghost predicate GrowthsBounded(first: nat, prime: nat, period: nat, maxPrime: nat, growths: nat) {
    && first <= prime <= maxPrime
    && (prime < maxPrime ==> prime >= first + growths * period)
    && (growths > 0 ==> first + (growths - 1) * period < maxPrime)
  }

  lemma GrowthKeepsBound(first: nat, prime: nat, period: nat, maxPrime: nat, growths: nat)
    requires GrowthsBounded(first, prime, period, maxPrime, growths) && prime < maxPrime
    ensures GrowthsBounded(first, Grown(prime, period, maxPrime), period, maxPrime, growths + 1)
  {
    assert (growths + 1) * period == growths * period + period;
  }

  lemma GrowthsAtMost(first: nat, prime: nat, period: nat, maxPrime: nat, growths: nat)
    requires GrowthsBounded(first, prime, period, maxPrime, growths) && period > 0
    ensures growths <= (maxPrime - first + period - 1) / period
  {
    CeilingQuotient(maxPrime - first, period);
    var q := (maxPrime - first + period - 1) / period;
    if growths > q {
      MulLe(q, growths - 1, period);
    }
  }

  // ---------------------------------------------------------------- equal clocks

  /** Every resampled frame so far is the stream itself from its eighth frame on. */
  ghost predicate Straight<T>(made: seq<T>, r: Resampler<T>) {
    && HALF - 1 + |made| <= |r.stream| && made == r.stream[HALF - 1..HALF - 1 + |made|]
    && r.at == (HALF - 1 + |made|) as real
  }

  /** `out` is the stream's own frames from number at + 7 on: input frames, after the 16 silent ones. */
  ghost predicate IsStream<T>(out: seq<T>, at: nat, r: Resampler<T>) {
    HALF - 1 + at + |out| <= |r.stream| && out == r.stream[HALF - 1 + at..HALF - 1 + at + |out|]
  }

  lemma StraightSlice<T>(made: seq<T>, r: Resampler<T>, at: nat, out: seq<T>)
    requires Straight(made, r) && AreMade(out, made, at)
    ensures IsStream(out, at, r)
  {
  }

  /** At ratio 1 it stays so. */
  lemma StraightStays<T>(made: seq<T>, r: Resampler<T>, input: seq<T>, filter: (seq<T>, real) -> T)
    requires Straight(made, r) && |r.stream| >= HALF
    ensures Straight(made + Produced(r, input, 1.0, filter), After(r, input, 1.0))
  {
    var stream, at := r.stream + input, HALF - 1 + |made|;
    var n: nat := if |stream| - HALF > at then |stream| - HALF - at else 0;
    CountUnique(r.at, 1.0, (|stream| - HALF) as real, n);
    if n > 0 {
      UnityOutputs(stream, at, n, filter);
    }
    assert Produced(r, input, 1.0, filter) == stream[at..at + n];
    assert made == stream[HALF - 1..at];
    assert made + stream[at..at + n] == stream[HALF - 1..at + n];
  }

  // ---------------------------------------------------------------- the queue

  /** The buffer holds the newest `count` frames made, oldest at readPos; every frame made was taken, dropped or is
      there. */
  ghost predicate Holds<T>(b: seq<T>, readPos: nat, count: nat, made: seq<T>, taken: nat, dropped: nat) {
    && readPos < |b| && count <= |b| && count <= |made| && |made| == taken + dropped + count
    && Unread(b, readPos, count) == made[|made| - count..]
  }

  /** The frames of `out` are those made from number `at` on. */
  ghost predicate AreMade<T>(out: seq<T>, made: seq<T>, at: nat) {
    at + |out| <= |made| && Same(out, made[at..at + |out|])
  }

  ghost predicate AllAre<T>(out: seq<T>, x: T) {
    forall k :: 0 <= k < |out| ==> out[k] == x
  }

  lemma LeaveHolds<T>(b: seq<T>, readPos: nat, count: nat, made: seq<T>, taken: nat, dropped: nat, n: nat)
    requires Holds(b, readPos, count, made, taken, dropped) && n <= count
    ensures PlaceOf(readPos + n, |b|) == (readPos + n) % |b|
    ensures Holds(b, PlaceOf(readPos + n, |b|), count - n, made, taken, dropped + n)
    ensures Holds(b, PlaceOf(readPos + n, |b|), count - n, made, taken + n, dropped)
    ensures AreMade(Unread(b, readPos, n), made, taken + dropped)
  {
    PlaceOfIs(readPos + n, |b|);
    UnreadAdvance(b, readPos, count, n);
    UnreadStart(b, readPos, n, count);
    assert made[|made| - count..][n..] == made[|made| - (count - n)..];
    assert made[|made| - count..][..n] == made[taken + dropped..taken + dropped + n];
  }

  lemma PutHolds<T>(b: seq<T>, readPos: nat, count: nat, made: seq<T>, taken: nat, dropped: nat, x: T)
    requires Holds(b, readPos, count, made, taken, dropped) && count < |b|
    ensures PlaceOf(readPos + count, |b|) == (readPos + count) % |b|
    ensures Holds(b[PlaceOf(readPos + count, |b|) := x], readPos, count + 1, made + [x], taken, dropped)
  {
    PlaceOfIs(readPos + count, |b|);
    PutOne(b, readPos, count, x);
    assert made[|made| - count..] + [x] == (made + [x])[|made + [x]| - (count + 1)..];
  }

  /** The control loop is set for the target, and its ratio is within 1 %. */
  ghost predicate Tune<T>(drift: DriftControl.Loop, rate: real, setpoint: real, prime: nat, r: Resampler<T>) {
    && rate > 0.0 && drift.p == DriftParams(prime) && drift.rate == rate && drift.setpoint == setpoint
    && 0.99 <= drift.ratio <= 1.01 && (HALF - 1) as real <= r.at && |r.stream| >= TAPS
  }

  /** One delivered packet: its frames and its time. */
  datatype Packet<T> = Packet(input: seq<T>, sec: real)

  function Inputs<T>(packets: seq<Packet<T>>): seq<seq<T>>
    decreases |packets|
  {
    if packets == [] then [] else [packets[0].input] + Inputs(packets[1..])
  }

  /** The frames made, once the resampler has had the packets. */
  ghost predicate Fed<T>(made: seq<T>, r: Resampler<T>, packets: seq<Packet<T>>, step: real, filter: (seq<T>, real) -> T,
                         made': seq<T>) {
    && (HALF - 1) as real <= r.at && step > 0.0
    && Same(made', made + ProducedAll(r, Inputs(packets), step, filter))
  }

  lemma NothingFed<T>(made: seq<T>, r: Resampler<T>, step: real, filter: (seq<T>, real) -> T)
    requires (HALF - 1) as real <= r.at && step > 0.0
    ensures Fed(made, r, [], step, filter, made)
  {
    assert made + [] == made;
  }

  lemma FedMore<T>(made: seq<T>, r: Resampler<T>, packets: seq<Packet<T>>, step: real, filter: (seq<T>, real) -> T,
                   made1: seq<T>, made2: seq<T>)
    requires packets != [] && (HALF - 1) as real <= r.at && step > 0.0
    requires made1 == made + Produced(r, packets[0].input, step, filter)
    requires Fed(made1, After(r, packets[0].input, step), packets[1..], step, filter, made2)
    ensures Fed(made, r, packets, step, filter, made2)
  {
    assert Inputs(packets)[1..] == Inputs(packets[1..]);
    Regroup(made, Produced(r, packets[0].input, step, filter),
            ProducedAll(After(r, packets[0].input, step), Inputs(packets[1..]), step, filter));
  }

  // ---------------------------------------------------------------- the class

  class Fifo<T> {
    const rate: real
    const block: nat
    const period: nat
    const maxPrime: nat
    const fifo: array<T>
    const silence: T
    const filter: (seq<T>, real) -> T
    var prime: nat
    var readPos: nat
    var count: nat
    var primed: bool
    var clock: Clock
    var r: Resampler<T>
    var drift: DriftControl.Loop
    var served: nat
    var starved: nat
    var trims: nat
    var growths: nat
    var skipped: nat
    ghost var first: nat      // the first target
    ghost var made: seq<T>    // every frame the resampler has put out
    ghost var taken: nat      // frames reads have returned
    ghost var dropped: nat    // frames dropped from the queue

    ghost predicate Queued()
      reads this`readPos, this`count, this`made, this`taken, this`dropped, fifo
    {
      fifo.Length == maxPrime + period + 16 * block && Holds(fifo[..], readPos, count, made, taken, dropped)
    }

    ghost predicate Tuned()
      reads this`prime, this`growths, this`first, this`drift, this`r
    {
      && period > 0 && GrowthsBounded(first, prime, period, maxPrime, growths)
      && Tune(drift, rate, (prime + block) as real, prime, r)
    }

    ghost predicate Valid()
      reads this, fifo
    {
      Queued() && Tuned()
    }

    /** No correction so far and none under way. */
    ghost predicate BitExact()
      reads this`drift, this`made, this`r
    {
      DriftControl.Quiet(drift) && Straight(made, r)
    }

    /** reset(). */
    constructor (rate: real, block: nat, period: nat, silence: T, filter: (seq<T>, real) -> T)
      requires rate > 0.0 && period > 0
      ensures Queued() && Tuned() && BitExact() && fresh(fifo) && made == [] && !primed && prime == first == 2 * block + period
      ensures maxPrime == Max(first + 16 * period, (rate / 10.0).Floor) && this.block == block && this.period == period
    {
      this.rate, this.block, this.period, this.silence, this.filter := rate, block, period, silence, filter;
      var p: nat := 2 * block + period;
      var most := if p + 16 * period > (rate / 10.0).Floor then p + 16 * period else (rate / 10.0).Floor;
      prime, maxPrime, first := p, most, p;
      fifo := new T[most + period + 16 * block](_ => silence);
      readPos, count, primed := 0, 0, false;
      clock := Clock(false, 0.0, 1.0 / 48000.0);
      r := Start(silence);
      drift := DriftControl.Reset((p + block) as real, rate, DriftParams(p));
      served, starved, trims, growths, skipped := 0, 0, 0, 0, 0;
      made, taken, dropped := [], 0, 0;
    }

    /** drop(). */
    method Drop(n: nat)
      requires Queued() && n <= count
      modifies this`readPos, this`count, this`dropped
      ensures Queued() && count == old(count) - n && dropped == old(dropped) + n
    {
      LeaveHolds(fifo[..], readPos, count, made, taken, dropped, n);
      readPos := (readPos + n) % fifo.Length;
      count := count - n;
      dropped := dropped + n;
    }

    /** One frame of push() into a queue that is not full. */
    method Put(x: T)
      requires Queued() && count < fifo.Length
      modifies this`count, this`made, fifo
      ensures Queued() && made == old(made) + [x] && count == old(count) + 1
    {
      PutHolds(fifo[..], readPos, count, made, taken, dropped, x);
      ghost var b := fifo[..];
      fifo[(readPos + count) % fifo.Length] := x;
      assert fifo[..] == b[PlaceOf(readPos + count, fifo.Length) := x];
      count := count + 1;
      made := made + [x];
    }

    /** The loop of push(): a full queue loses its oldest frame. */
    method StoreAll(resampled: seq<T>)
      requires Queued()
      modifies this`readPos, this`count, this`dropped, this`made, this`trims, fifo
      ensures Queued() && made == old(made) + resampled && count == Min(old(count) + |resampled|, fifo.Length)
      ensures trims == old(trims) + if old(count) + |resampled| > fifo.Length then 1 else 0
    {
      var overflowed := false;
      for f := 0 to |resampled|
        modifies this`readPos, this`count, this`dropped, this`made, fifo
        invariant Queued() && made == old(made) + resampled[..f] && count == Min(old(count) + f, fifo.Length)
        invariant overflowed == (old(count) + f > fifo.Length)
      {
        if count == fifo.Length {
          Drop(1);
          overflowed := true;
        }
        Put(resampled[f]);
        assert resampled[..f] + [resampled[f]] == resampled[..f + 1];
      }
      assert resampled[..|resampled|] == resampled;
      if overflowed { trims := trims + 1; }
    }

    /** push(): the packet passes through the resampler at the present ratio, and the queue takes the newest that fits. */
    method Push(input: seq<T>, packetSec: real)
      requires Valid()
      modifies this`readPos, this`count, this`dropped, this`made, this`clock, this`r, this`trims, fifo
      ensures Valid() && drift.ratio > 0.0 && clock == Tracked(old(clock), rate, |input|, packetSec)
      ensures made == old(made) + Produced(old(r), input, Step(drift.ratio), filter)
      ensures r == After(old(r), input, Step(drift.ratio))
      ensures count == Min(old(count) + (|made| - |old(made)|), fifo.Length)
      ensures old(BitExact()) ==> BitExact()
    {
      clock := Tracked(clock, rate, |input|, packetSec);
      var resampled := Resample(input);
      StoreAll(resampled);
    }

    /** Packets in a row are one stream to the resampler. */
    method PushAll(packets: seq<Packet<T>>)
      requires Valid()
      modifies this`readPos, this`count, this`dropped, this`made, this`clock, this`r, this`trims, fifo
      ensures Valid() && drift.ratio > 0.0
      ensures Fed(old(made), old(r), packets, Step(drift.ratio), filter, made)
      ensures count == Min(old(count) + (|made| - |old(made)|), fifo.Length)
      ensures old(BitExact()) ==> BitExact()
      decreases |packets|
    {
      ghost var made0, r0 := made, r;
      NothingFed(made, r, Step(drift.ratio), filter);
      if packets != [] {
        Push(packets[0].input, packets[0].sec);
        ghost var made1 := made;
        PushAll(packets[1..]);
        FedMore(made0, r0, packets, Step(drift.ratio), filter, made1, made);
      }
    }

    /** With the packets in, the last of the next prime + need frames is due. */
    ghost predicate Prepares(packets: seq<Packet<T>>, need: nat)
      reads this
    {
      && drift.ratio > 0.0 && packets != [] && prime + need > 0
      && Position(r.at, Step(drift.ratio), prime + need - 1) < (|r.stream| + |Joined(Inputs(packets))| - HALF) as real
    }

    lemma Prepared(packets: seq<Packet<T>>, need: nat)
      requires Valid() && need <= block && Prepares(packets, need)
      ensures |ProducedAll(r, Inputs(packets), Step(drift.ratio), filter)| >= prime + need
    {
      CallsAreOneCall(r, Inputs(packets), Step(drift.ratio), filter);
      DueFrames(r, Joined(Inputs(packets)), Step(drift.ratio), filter, prime + need);
    }

    /** Priming stays reachable: whatever the queue and the resampler hold, and however often the target has grown, packets
        long enough together, in any split, make the next read a start. */
    method Prime(packets: seq<Packet<T>>, need: nat)
      requires Valid() && need <= block
      modifies this`readPos, this`count, this`dropped, this`made, this`clock, this`r, this`trims, fifo
      ensures Valid()
      ensures forall now: real :: old(Prepares(packets, need)) && !primed && clock.framePeriod > 0.0 ==>
                Starts(primed, count, Backlog(count, clock, now), prime, need)
    {
      if Prepares(packets, need) { Prepared(packets, need); }
      PushAll(packets);
    }

    /** The resampler's part of push(). */
    method Resample(input: seq<T>) returns (out: seq<T>)
      requires Tuned()
      modifies this`r
      ensures Tuned() && r == After(old(r), input, Step(drift.ratio)) && out == Produced(old(r), input, Step(drift.ratio), filter)
      ensures drift.ratio == 1.0 && Straight(made, old(r)) ==> Straight(made + out, r)
    {
      var step := Step(drift.ratio);
      if Straight(made, r) && drift.ratio == 1.0 {
        assert step == 1.0;
        StraightStays(made, r, input, filter);
      }
      out := Produced(r, input, step, filter);
      r := After(r, input, step);
    }

    /** The priming branch of read(). */
    method StartWhenReady(need: nat, now: real)
      requires Queued() && clock.framePeriod > 0.0
      modifies this`readPos, this`count, this`dropped, this`primed
      ensures Queued() && primed == (old(primed) || Starts(old(primed), old(count), Backlog(old(count), clock, now), prime, need))
      ensures count == old(count) - AtStart(old(primed), old(count), Backlog(old(count), clock, now), prime, need)
      ensures dropped == old(dropped) + (old(count) - count)
    {
      if !primed && Backlog(count, clock, now) >= (prime + need) as real && count >= need {
        Drop(StartCut(count, Backlog(count, clock, now), prime, need));
        primed := true;
      }
    }

    /** The resync branch of read(). */
    method Resync(need: nat)
      requires Queued()
      modifies this`readPos, this`count, this`dropped, this`trims
      ensures Queued() && count == old(count) - (if primed then FarCut(old(count), prime, period, need) else 0)
      ensures dropped == old(dropped) + (old(count) - count)
    {
      if primed && count > prime + period + 8 * need {
        Drop(count - (prime + need));
        trims := trims + 1;
      }
    }

    /** The starved branch of read(): a larger target, then priming again. */
    method Starve()
      requires Tuned()
      modifies this`starved, this`primed, this`prime, this`growths, this`drift
      ensures Tuned() && !primed && prime == Grown(old(prime), period, maxPrime) && old(prime) <= prime <= maxPrime
      ensures old(prime) < maxPrime ==> old(prime) < prime
      ensures growths == old(growths) + if old(prime) < maxPrime then 1 else 0
      ensures DriftControl.Quiet(old(drift)) ==> DriftControl.Quiet(drift)
    {
      starved := starved + 1;
      primed := false;
      if prime < maxPrime { Grow(); }
    }

    /** The new target. */
    method Grow()
      requires Tuned() && prime < maxPrime
      modifies this`prime, this`growths, this`drift
      ensures Tuned() && prime == Grown(old(prime), period, maxPrime) && old(prime) < prime <= maxPrime
      ensures growths == old(growths) + 1
      ensures DriftControl.Quiet(old(drift)) ==> DriftControl.Quiet(drift)
    {
      GrowthKeepsBound(first, prime, period, maxPrime, growths);
      var grow := if prime / 4 > period then prime / 4 else period;
      prime := if prime + grow < maxPrime then prime + grow else maxPrime;
      growths := growths + 1;
      if DriftControl.Quiet(drift) {
        DriftControl.RetargetStaysQuiet(drift, (prime + block) as real, Deadband(prime), 0.0, 0.0);
      }
      drift := DriftControl.Retarget(drift, (prime + block) as real, Deadband(prime));
    }

    /** The control step of a read that delivers. */
    method Observe(need: nat, measured: real)
      requires Tuned()
      modifies this`drift
      ensures Tuned() && drift == DriftControl.Observed(old(drift), measured, need as real / rate)
      ensures DriftControl.Quiet(old(drift)) && InBand(measured, prime, block) ==>
                DriftControl.Quiet(drift)
    {
      var dt := BlockSeconds(need, rate);
      if DriftControl.Quiet(drift) && InBand(measured, prime, block) {
        DriftControl.FillInsideStaysQuiet(drift, measured, dt);
      }
      DriftControl.ObservedBounded(drift, measured, dt);
      drift := DriftControl.Observed(drift, measured, dt);
    }

    /** The oldest `need` frames of the queue. */
    method Take(need: nat) returns (out: seq<T>)
      requires Queued() && need <= count
      modifies this`readPos, this`count, this`taken
      ensures Queued() && count == old(count) - need && taken == old(taken) + need
      ensures |out| == need && AreMade(out, made, old(taken) + dropped)
    {
      LeaveHolds(fifo[..], readPos, count, made, taken, dropped, need);
      out := Copy(need);
      readPos := (readPos + need) % fifo.Length;
      count := count - need;
      taken := taken + need;
    }

    /** The copy loop of read(). */
    method Copy(need: nat) returns (out: seq<T>)
      requires fifo.Length > 0
      ensures out == Unread(fifo[..], readPos, need)
    {
      out := [];
      for f := 0 to need
        invariant out == Unread(fifo[..], readPos, f)
      {
        PlaceOfIs(readPos + f, fifo.Length);
        out := out + [fifo[(readPos + f) % fifo.Length]];
      }
    }

    /** The two cuts of read(). */
    method Cut(need: nat, now: real)
      requires Queued() && clock.framePeriod > 0.0
      modifies this`readPos, this`count, this`dropped, this`primed, this`trims
      ensures Queued() && dropped == old(dropped) + (old(count) - count)
      ensures count == AfterCuts(old(primed), old(count), Backlog(old(count), clock, now), prime, period, need)
      ensures primed == (old(primed) || Starts(old(primed), old(count), Backlog(old(count), clock, now), prime, need))
      ensures primed && !old(primed) ==> count >= need
    {
      StartWhenReady(need, now);
      Resync(need);
    }

    /** read(). It delivers exactly when the queue, cut at the start or when far above the target, is primed and holds a
        block; the read that primes always delivers; the frames are the next ones made, after those this read drops.
        While no correction is under way they are the stream's own frames, and a fill within the deadband keeps it so.
        `left` is what the two cuts leave in the queue. */
    method Read(need: nat, now: real) returns (ok: bool, out: seq<T>, ghost left: nat)
      requires Valid() && clock.framePeriod > 0.0
      modifies this`readPos, this`count, this`dropped, this`primed, this`trims, this`taken, this`starved, this`prime,
               this`growths, this`drift, this`served
      ensures Valid()
      ensures left == AfterCuts(old(primed), old(count), Backlog(old(count), clock, now), old(prime), period, need)
      ensures ok == ((old(primed) || Starts(old(primed), old(count), Backlog(old(count), clock, now), old(prime), need)) && left >= need)
      ensures Starts(old(primed), old(count), Backlog(old(count), clock, now), old(prime), need) ==> ok
      ensures count == left - (if ok then need else 0)
      ensures dropped == old(dropped) + (old(count) - left) && taken == old(taken) + if ok then need else 0
      ensures primed == ok
      ensures |out| == need && if ok then AreMade(out, made, old(taken) + dropped) else AllAre(out, silence)
      ensures prime == if old(primed) && !ok then Grown(old(prime), period, maxPrime) else old(prime)
      ensures old(prime) <= prime <= maxPrime
      ensures old(BitExact()) && (ok ==> InBand(Backlog(left, clock, now), prime, block)) ==>
                BitExact()
      ensures old(BitExact()) && ok ==> IsStream(out, old(taken) + dropped, r)
    {
      Cut(need, now);
      left := count;
      ok, out := Finish(need, Backlog(count, clock, now));
    }

    /** read() after its cuts. */
    method Finish(need: nat, measured: real) returns (ok: bool, out: seq<T>)
      requires Valid()
      modifies this`readPos, this`count, this`primed, this`taken, this`starved, this`prime, this`growths, this`drift,
               this`served
      ensures Valid() && ok == (old(primed) && old(count) >= need) && primed == ok
      ensures count == old(count) - (if ok then need else 0) && taken == old(taken) + if ok then need else 0
      ensures |out| == need && if ok then AreMade(out, made, old(taken) + dropped) else AllAre(out, silence)
      ensures prime == (if old(primed) && !ok then Grown(old(prime), period, maxPrime) else old(prime)) && old(prime) <= prime
      ensures old(BitExact()) && (ok ==> InBand(measured, prime, block)) ==> BitExact()
      ensures old(BitExact()) && ok ==> IsStream(out, old(taken) + dropped, r)
    {
      ok, out := primed && count >= need, seq(need, _ => silence);
      if primed && count < need {
        Starve();
      } else if primed {
        Observe(need, measured);
        out := Take(need);
        served := served + 1;
        if Straight(made, r) { StraightSlice(made, r, taken - need + dropped, out); }
      }
    }

    /** skip(): the Master Clock ticked without a read. */
    method Skip(frames: nat)
      requires Valid()
      modifies this`readPos, this`count, this`dropped, this`skipped
      ensures Valid() && count == old(count) - (if primed then Min(frames, old(count)) else 0)
      ensures dropped == old(dropped) + (old(count) - count)
      ensures old(BitExact()) ==> BitExact()
    {
      if !primed { return; }
      Drop(Min(frames, count));
      skipped := skipped + frames;
    }

    lemma GrowthLimit()
      requires Valid()
      ensures growths <= (maxPrime - first + period - 1) / period
    {
      GrowthsAtMost(first, prime, period, maxPrime, growths);
    }
  }
}
