/** WHADriftResampler. Frames are values and the windowed-sinc filter is a function of 16 frames and a fraction; what is
    modelled is which frames each output is made of. */
module DriftResampler {
  import opened Sequences

  const TAPS: nat := 16
  const HALF: nat := 8

  // ---------------------------------------------------------------- the outputs on the whole stream

  /** `stream` is 16 silent frames and every input frame since; `at` is the next read position in it. */
  datatype Resampler<T> = Resampler(stream: seq<T>, at: real)

  function Silent<T>(silence: T): (s: seq<T>)
    ensures |s| == TAPS && forall k :: 0 <= k < TAPS ==> s[k] == silence
  {
    seq(TAPS, _ => silence)
  }

  function Start<T>(silence: T): Resampler<T> {
    Resampler(Silent(silence), (HALF - 1) as real)
  }

  /** The output for read position y: the frame there, or the filter over the 8 frames up to it and the 8 after it. */
  function Tap<T>(stream: seq<T>, y: real, filter: (seq<T>, real) -> T): T
    requires (HALF - 1) as real <= y < (|stream| - HALF) as real
  {
    var p := y.Floor;
    if y == p as real then stream[p] else filter(stream[p + 1 - HALF..p + 1 + HALF], y - p as real)
  }

  function Position(at: real, step: real, k: int): real {
    at + k as real * step
  }

  lemma NextPosition(at: real, step: real, k: int)
    ensures Position(at, step, k + 1) == Position(at, step, k) + step
  {
  }

  /** Positions grow with k. */
  lemma PositionsGrow(at: real, step: real, j: int, k: int)
    requires step >= 0.0 && j <= k
    ensures Position(at, step, j) <= Position(at, step, k)
  {
    var d := (k - j) as real;
    assert k as real == j as real + d;
    assert (j as real + d) * step == j as real * step + d * step;
    assert d * step >= 0.0;
  }

  function Ceiling(y: real): (c: int)
    ensures (c - 1) as real < y <= c as real
  {
    -(-y).Floor
  }

  /** How many positions from `at` on, a step apart, lie before `limit`. */
  function Count(at: real, step: real, limit: real): (n: nat)
    requires step > 0.0
  {
    if at >= limit then 0
    else
      Divides(limit - at, step);
      Ceiling((limit - at) / step)
  }

  lemma Divides(d: real, step: real)
    requires step > 0.0
    ensures d / step * step == d && (d > 0.0 ==> d / step > 0.0)
  {
  }

  lemma CountIs(at: real, step: real, limit: real)
    requires step > 0.0
    ensures var n := Count(at, step, limit);
            limit <= Position(at, step, n) && (n > 0 ==> Position(at, step, n - 1) < limit)
  {
    if at < limit {
      var d, n := (limit - at) / step, Count(at, step, limit);
      Divides(limit - at, step);
      Between((n - 1) as real, d, n as real, step, limit - at);
    }
  }

  lemma MulLess(a: real, b: real, d: real)
    requires d > 0.0
    ensures a < b ==> a * d < b * d
    ensures a <= b ==> a * d <= b * d
  {
  }

  /** Only that number of positions does. */
  lemma CountUnique(at: real, step: real, limit: real, n: nat)
    requires step > 0.0 && limit <= Position(at, step, n) && (n > 0 ==> Position(at, step, n - 1) < limit)
    ensures n == Count(at, step, limit)
  {
    var c := Count(at, step, limit);
    CountIs(at, step, limit);
    if n < c { PositionsGrow(at, step, n, c - 1); }
    if c < n { PositionsGrow(at, step, c, n - 1); }
  }

  /** The outputs for n positions. */
  function Outputs<T>(stream: seq<T>, at: real, step: real, n: nat, filter: (seq<T>, real) -> T): (out: seq<T>)
    requires (HALF - 1) as real <= at && step > 0.0
    requires n > 0 ==> Position(at, step, n - 1) < (|stream| - HALF) as real
    ensures |out| == n
    decreases n
  {
    if n == 0 then []
    else
      PositionsGrow(at, step, 0, n - 1);
      PositionsGrow(at, step, n - 2, n - 1);
      Outputs(stream, at, step, n - 1, filter) + [Tap(stream, Position(at, step, n - 1), filter)]
  }

  /** process(): what it puts out, and the resampler after it. */
  function Produced<T>(r: Resampler<T>, input: seq<T>, step: real, filter: (seq<T>, real) -> T): (out: seq<T>)
    requires (HALF - 1) as real <= r.at && step > 0.0
    ensures |out| == Count(r.at, step, (|r.stream + input| - HALF) as real)
  {
    var limit := (|r.stream + input| - HALF) as real;
    CountIs(r.at, step, limit);
    Outputs(r.stream + input, r.at, step, Count(r.at, step, limit), filter)
  }

  function After<T>(r: Resampler<T>, input: seq<T>, step: real): (r': Resampler<T>)
    requires step > 0.0
    ensures (HALF - 1) as real <= r.at ==> r.at <= r'.at
  {
    var n := Count(r.at, step, (|r.stream + input| - HALF) as real);
    PositionsGrow(r.at, step, 0, n);
    Resampler(r.stream + input, Position(r.at, step, n))
  }

  // ---------------------------------------------------------------- the split into calls does not matter

  /** Input that comes later changes no output already due. */
  lemma {:induction false} OutputsKeep<T>(stream: seq<T>, more: seq<T>, at: real, step: real, n: nat, filter: (seq<T>, real) -> T)
    requires (HALF - 1) as real <= at && step > 0.0
    requires n > 0 ==> Position(at, step, n - 1) < (|stream| - HALF) as real
    ensures Outputs(stream, at, step, n, filter) == Outputs(stream + more, at, step, n, filter)
    decreases n
  {
    if n > 0 {
      PositionsGrow(at, step, 0, n - 1);
      PositionsGrow(at, step, n - 2, n - 1);
      OutputsKeep(stream, more, at, step, n - 1, filter);
      TapKeeps(stream, more, Position(at, step, n - 1), filter);
    }
  }

  lemma TapKeeps<T>(stream: seq<T>, more: seq<T>, y: real, filter: (seq<T>, real) -> T)
    requires (HALF - 1) as real <= y < (|stream| - HALF) as real
    ensures Tap(stream, y, filter) == Tap(stream + more, y, filter)
  {
    var p := y.Floor;
    assert (stream + more)[p + 1 - HALF..p + 1 + HALF] == stream[p + 1 - HALF..p + 1 + HALF];
  }

  /** The outputs for m + n positions are those for m and, from there, those for n. */
  lemma {:induction false} OutputsJoin<T>(stream: seq<T>, at: real, step: real, m: nat, n: nat, filter: (seq<T>, real) -> T)
    requires (HALF - 1) as real <= at && step > 0.0
    requires m + n > 0 ==> Position(at, step, m + n - 1) < (|stream| - HALF) as real
    ensures (HALF - 1) as real <= Position(at, step, m)
    ensures m > 0 ==> Position(at, step, m - 1) < (|stream| - HALF) as real
    ensures n > 0 ==> Position(Position(at, step, m), step, n - 1) < (|stream| - HALF) as real
    ensures Outputs(stream, at, step, m + n, filter) ==
            Outputs(stream, at, step, m, filter) + Outputs(stream, Position(at, step, m), step, n, filter)
    decreases n
  {
    PositionsGrow(at, step, 0, m);
    if n == 0 {
    } else {
      PositionsGrow(at, step, m - 1, m + n - 1);
      PositionsGrow(at, step, m + n - 2, m + n - 1);
      PositionFrom(at, step, m, n - 1);
      OutputsJoin(stream, at, step, m, n - 1, filter);
    }
  }

  lemma PositionFrom(at: real, step: real, m: int, k: int)
    ensures Position(Position(at, step, m), step, k) == Position(at, step, m + k)
  {
    assert (m + k) as real == m as real + k as real;
    assert (m as real + k as real) * step == m as real * step + k as real * step;
  }

  /** One call with a + b puts out what a call with a and then one with b do. */
  lemma SplitDoesNotMatter<T>(r: Resampler<T>, a: seq<T>, b: seq<T>, step: real, filter: (seq<T>, real) -> T)
    requires (HALF - 1) as real <= r.at && step > 0.0
    ensures After(r, a + b, step) == After(After(r, a, step), b, step)
    ensures Produced(r, a + b, step, filter) == Produced(r, a, step, filter) + Produced(After(r, a, step), b, step, filter)
  {
    var s, t := r.stream + a, r.stream + a + b;
    assert r.stream + (a + b) == t;
    var m := Count(r.at, step, (|s| - HALF) as real);
    CountIs(r.at, step, (|s| - HALF) as real);
    var mid := Position(r.at, step, m);
    var n := Count(mid, step, (|t| - HALF) as real);
    CountIs(mid, step, (|t| - HALF) as real);
    PositionFrom(r.at, step, m, n);
    if n > 0 { PositionFrom(r.at, step, m, n - 1); }
    CountUnique(r.at, step, (|t| - HALF) as real, m + n);
    OutputsJoin(t, r.at, step, m, n, filter);
    OutputsKeep(s, b, r.at, step, m, filter);
  }

  /** Several calls in a row at one ratio. */
  function ProducedAll<T>(r: Resampler<T>, calls: seq<seq<T>>, step: real, filter: (seq<T>, real) -> T): seq<T>
    requires (HALF - 1) as real <= r.at && step > 0.0
    decreases |calls|
  {
    if calls == [] then []
    else Produced(r, calls[0], step, filter) + ProducedAll(After(r, calls[0], step), calls[1..], step, filter)
  }

  lemma {:induction false} CallsAreOneCall<T>(r: Resampler<T>, calls: seq<seq<T>>, step: real, filter: (seq<T>, real) -> T)
    requires (HALF - 1) as real <= r.at && step > 0.0 && calls != []
    ensures ProducedAll(r, calls, step, filter) == Produced(r, Joined(calls), step, filter)
    decreases |calls|
  {
    var rest := calls[1..];
    if rest == [] {
      assert Joined(calls) == calls[0];
    } else {
      CallsAreOneCall(After(r, calls[0], step), rest, step, filter);
      SplitDoesNotMatter(r, calls[0], Joined(rest), step, filter);
    }
  }

  /** A call puts out at least k frames exactly if the last of their positions is due once its input is in. */
  lemma DueFrames<T>(r: Resampler<T>, input: seq<T>, step: real, filter: (seq<T>, real) -> T, k: nat)
    requires (HALF - 1) as real <= r.at && step > 0.0 && k > 0
    ensures |Produced(r, input, step, filter)| >= k <==>
            Position(r.at, step, k - 1) < (|r.stream| + |input| - HALF) as real
  {
    var n := |Produced(r, input, step, filter)|;
    assert |r.stream + input| == |r.stream| + |input|;
    CountIs(r.at, step, (|r.stream + input| - HALF) as real);
    if n >= k { PositionsGrow(r.at, step, k - 1, n - 1); } else { PositionsGrow(r.at, step, n, k - 1); }
  }

  /** The frames due after n frames of input. */
  function FramesOut(n: nat, ratio: real): int {
    Ceiling((n + 1) as real * ratio)
  }

  /** From a reset, whatever the split of the input into calls (at least one): at ratio r exactly ceiling((N + 1) r) frames
      come out for N frames in, and they are the outputs for the positions 7, 7 + 1/r, 7 + 2/r ... of the whole stream. `step` is 1/r. */
  lemma OutputOfStream<T>(silence: T, calls: seq<seq<T>>, ratio: real, step: real, filter: (seq<T>, real) -> T)
    requires ratio > 0.0 && step > 0.0 && step * ratio == 1.0 && calls != []
    ensures var out := ProducedAll(Start(silence), calls, step, filter);
            |out| == FramesOut(|Joined(calls)|, ratio) && out == Produced(Start(silence), Joined(calls), step, filter)
  {
    CallsAreOneCall(Start(silence), calls, step, filter);
    ProducedFromReset(silence, Joined(calls), ratio, step, filter);
  }

  lemma ProducedFromReset<T>(silence: T, input: seq<T>, ratio: real, step: real, filter: (seq<T>, real) -> T)
    requires ratio > 0.0 && step > 0.0 && step * ratio == 1.0
    ensures |Produced(Start(silence), input, step, filter)| == FramesOut(|input|, ratio)
  {
    var n := |input|;
    assert |Start(silence).stream + input| - HALF == TAPS + n - HALF;
    CountFromReset(n, ratio, step);
  }

  lemma CountFromReset(n: nat, ratio: real, step: real)
    requires ratio > 0.0 && step > 0.0 && step * ratio == 1.0
    ensures Count((HALF - 1) as real, step, (TAPS + n - HALF) as real) == FramesOut(n, ratio)
  {
    var c := FramesOut(n, ratio);
    Positive((n + 1) as real, ratio);
    ScaledBy((n + 1) as real, ratio, step, c);
    CountUnique((HALF - 1) as real, step, (TAPS + n - HALF) as real, c);
  }

  lemma Positive(a: real, b: real)
    requires a > 0.0 && b > 0.0
    ensures a * b > 0.0
  {
  }

  /** If the ceiling of a * ratio is c, then a lies above c - 1 steps and at most at c steps. */
  lemma ScaledBy(a: real, ratio: real, step: real, c: int)
    requires ratio > 0.0 && step * ratio == 1.0 && step > 0.0
    requires (c - 1) as real < a * ratio <= c as real
    ensures Position(0.0, step, c - 1) < a <= Position(0.0, step, c)
  {
    Reassociate(a, ratio, step);
    Between((c - 1) as real, a * ratio, c as real, step, a);
  }

  lemma Between(low: real, b: real, high: real, d: real, a: real)
    requires low < b <= high && d > 0.0 && b * d == a
    ensures low * d < a <= high * d
  {
    MulLess(low, b, d);
    MulLess(b, high, d);
  }

  lemma Reassociate(a: real, b: real, d: real)
    requires d * b == 1.0
    ensures a * b * d == a
  {
    assert a * b * d == a * (d * b);
  }

  /** At ratio 1 the output is the input itself, nine frames late: output k is input k - 9, and silence before. */
  lemma UnityIsDelay<T>(silence: T, input: seq<T>, filter: (seq<T>, real) -> T, k: nat)
    requires k < |Produced(Start(silence), input, 1.0, filter)|
    ensures |Produced(Start(silence), input, 1.0, filter)| == |input| + 1
    ensures Produced(Start(silence), input, 1.0, filter)[k] == if k < 9 then silence else input[k - 9]
  {
    var stream := Silent(silence) + input;
    CountUnique((HALF - 1) as real, 1.0, (|stream| - HALF) as real, |input| + 1);
    UnityOutputs(stream, HALF - 1, |input| + 1, filter);
  }

  lemma {:induction false} UnityOutputs<T>(stream: seq<T>, at: nat, n: nat, filter: (seq<T>, real) -> T)
    requires HALF - 1 <= at && at + n <= |stream| - HALF
    ensures Outputs(stream, at as real, 1.0, n, filter) == stream[at..at + n]
    decreases n
  {
    if n > 0 {
      UnityOutputs(stream, at, n - 1, filter);
      assert Position(at as real, 1.0, n - 1) == (at + n - 1) as real;
      assert Outputs(stream, at as real, 1.0, n, filter) == stream[at..at + n - 1] + [stream[at + n - 1]];
    }
  }

  // ---------------------------------------------------------------- the class

  /** How far the read position moves per output. */
  function Step(ratio: real): (step: real)
    requires ratio > 0.0
    ensures step > 0.0 && step * ratio == 1.0
  {
    Divides(1.0, ratio);
    1.0 / ratio
  }

  /** What the loop reads from the history at `pos` is the output for the stream position it stands for. */
  lemma HistoryTap<T>(stream: seq<T>, base: nat, pos: nat, frac: real, filter: (seq<T>, real) -> T)
    requires base <= |stream| && HALF - 1 <= pos && pos + HALF < |stream| - base && 0.0 <= frac < 1.0
    ensures var hist, y := stream[base..], (base + pos) as real + frac;
            && (HALF - 1) as real <= y < (|stream| - HALF) as real
            && Tap(stream, y, filter) == if frac == 0.0 then hist[pos] else filter(hist[pos + 1 - HALF..pos + 1 + HALF], frac)
  {
    var y := (base + pos) as real + frac;
    assert y.Floor == base + pos;
    assert stream[base..][pos + 1 - HALF..pos + 1 + HALF] == stream[base + pos + 1 - HALF..base + pos + 1 + HALF];
  }

  /** Whether another position lies before the limit. */
  lemma MoreToDo(at: real, step: real, limit: real, k: nat)
    requires step > 0.0 && k <= Count(at, step, limit)
    ensures k < Count(at, step, limit) <==> Position(at, step, k) < limit
  {
    var n := Count(at, step, limit);
    CountIs(at, step, limit);
    if k < n { PositionsGrow(at, step, k, n - 1); }
  }

  class Filter<T> {
    var hist: seq<T>
    var frac: real
    ghost var r: Resampler<T>
    ghost var base: nat   // how many frames of the stream the history no longer holds

    /** The read position is that of hist[7] plus the fraction. */
    ghost predicate Valid()
      reads this
    {
      && base <= |r.stream| && hist == r.stream[base..] && 0.0 <= frac < 1.0
      && r.at == (base + HALF - 1) as real + frac
    }

    constructor (silence: T)
      ensures Valid() && r == Start(silence)
    {
      hist, frac, r, base := Silent(silence), 0.0, Start(silence), 0;
    }

    /** process(). Every frame it reads is in the history, and what it erases is, for any ratio above 1/16. */
    method Process(input: seq<T>, ratio: real, filter: (seq<T>, real) -> T) returns (out: seq<T>)
      requires Valid() && ratio > 0.0 && Step(ratio) < TAPS as real
      modifies this
      ensures Valid() && r == After(old(r), input, Step(ratio)) && out == Produced(old(r), input, Step(ratio), filter)
    {
      var step := Step(ratio);
      hist := hist + input;
      ghost var stream := r.stream + input;
      assert hist == stream[base..];
      var pos;
      out, pos := Emit(step, stream, filter);
      var keepFrom := pos + 1 - HALF;
      assert stream[base..][keepFrom..] == stream[base + keepFrom..];
      hist := hist[keepFrom..];
      base := base + keepFrom;
      r := After(r, input, step);
    }

    /** The loop of process(); `pos` is where it ends. */
    method Emit(step: real, ghost stream: seq<T>, filter: (seq<T>, real) -> T) returns (out: seq<T>, pos: nat)
      requires 0.0 < step < TAPS as real && base <= |stream| && hist == stream[base..]
      requires 0.0 <= frac < 1.0 && r.at == (base + HALF - 1) as real + frac
      modifies `frac
      ensures HALF - 1 <= pos < |hist| + HALF && 0.0 <= frac < 1.0
      ensures var n := Count(r.at, step, (|stream| - HALF) as real);
              && ReadsAt(base + pos, frac, r.at, step, n) && |out| == n
              && Emitted(out, stream, r.at, step, n, filter)
    {
      ghost var k := 0;
      out, pos := [], HALF - 1;
      while pos + HALF < |hist|
        modifies `frac
        invariant HALF - 1 <= pos < |hist| + HALF && 0.0 <= frac < 1.0 && k <= Count(r.at, step, (|stream| - HALF) as real)
        invariant ReadsAt(base + pos, frac, r.at, step, k) && Emitted(out, stream, r.at, step, k, filter)
        decreases Count(r.at, step, (|stream| - HALF) as real) - k
      {
        EmitsNext(out, stream, base, pos, frac, r.at, step, k, filter);
        out := out + [if frac == 0.0 then hist[pos] else filter(hist[pos + 1 - HALF..pos + 1 + HALF], frac)];
        k := k + 1;
        var next := frac + step;
        var whole := next.Floor;
        pos := pos + whole;
        frac := next - whole as real;
      }
      NoneLeft(stream, base, pos, frac, r.at, step, k);
    }
  }

  /** Stream position p and a fraction are the k-th read position. */
  ghost predicate ReadsAt(p: int, frac: real, at: real, step: real, k: int) {
    p as real + frac == Position(at, step, k)
  }

  ghost predicate Emitted<T>(out: seq<T>, stream: seq<T>, at: real, step: real, k: nat, filter: (seq<T>, real) -> T) {
    && (HALF - 1) as real <= at && step > 0.0 && (k > 0 ==> Position(at, step, k - 1) < (|stream| - HALF) as real)
    && out == Outputs(stream, at, step, k, filter)
  }

  lemma EmitsNext<T>(out: seq<T>, stream: seq<T>, base: nat, pos: nat, frac: real, at: real, step: real, k: nat,
                     filter: (seq<T>, real) -> T)
    requires base <= |stream| && HALF - 1 <= pos && pos + HALF < |stream| - base && 0.0 <= frac < 1.0
    requires ReadsAt(base + pos, frac, at, step, k) && Emitted(out, stream, at, step, k, filter)
    requires k <= Count(at, step, (|stream| - HALF) as real)
    ensures k < Count(at, step, (|stream| - HALF) as real)
    ensures ReadsAt(base + pos + (frac + step).Floor, frac + step - (frac + step).Floor as real, at, step, k + 1)
    ensures var hist := stream[base..];
            var x := if frac == 0.0 then hist[pos] else filter(hist[pos + 1 - HALF..pos + 1 + HALF], frac);
            Emitted(out + [x], stream, at, step, k + 1, filter)
  {
    MoreToDo(at, step, (|stream| - HALF) as real, k);
    HistoryTap(stream, base, pos, frac, filter);
    NextPosition(at, step, k);
  }

  lemma NoneLeft<T>(stream: seq<T>, base: nat, pos: nat, frac: real, at: real, step: real, k: nat)
    requires step > 0.0 && pos + HALF >= |stream| - base && 0.0 <= frac
    requires ReadsAt(base + pos, frac, at, step, k) && k <= Count(at, step, (|stream| - HALF) as real)
    ensures k == Count(at, step, (|stream| - HALF) as real)
  {
    MoreToDo(at, step, (|stream| - HALF) as real, k);
  }
}
