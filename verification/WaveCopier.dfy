/** WHAWaveStream on the playback side: the audio engine's cyclic buffer advances by the performance counter, and each
    update hands the frames passed since the last one to the cable's ring. F is a frame as the engine stores it, T a frame
    as the ring stores it. */
module WaveCopier {
  import opened Arithmetic
  import opened Bits
  import opened Circular
  import opened CableQueue
  import opened Sequences

  const SCRATCH_FRAMES: nat := 256

  // ---------------------------------------------------------------- the clock

  /** ElapsedFramesLocked() with the counter at `now`: whole seconds and the rest apart, which is still the rounded-down
      quotient of the whole product. */
  function ElapsedFrames(now: int, start: int, rate: nat, frequency: nat): (frames: nat)
    requires frequency > 0
    ensures frames == (if now > start then now - start else 0) * rate / frequency
  {
    var ticks: nat := if now > start then now - start else 0;
    SplitDivision(ticks, rate, frequency);
    ticks / frequency * rate + ticks % frequency * rate / frequency
  }

  lemma SplitDivision(ticks: nat, rate: nat, frequency: nat)
    requires frequency > 0
    ensures ticks * rate / frequency == ticks / frequency * rate + ticks % frequency * rate / frequency
    ensures 0 <= ticks / frequency * rate && 0 <= ticks % frequency * rate / frequency
    ensures ticks % frequency * rate <= frequency * rate
  {
    var q, r := ticks / frequency, ticks % frequency;
    DivMod(ticks, frequency);
    QuotientNat(ticks, frequency);
    MulLe(0, q, rate);
    MulLe(0, r, rate);
    MulLe(r, frequency, rate);
    var p, s := r * rate / frequency, r * rate % frequency;
    DivMod(r * rate, frequency);
    QuotientNat(r * rate, frequency);
    assert ticks * rate == q * frequency * rate + r * rate by { MulSplit(q * frequency, r, rate); }
    assert q * frequency * rate == q * rate * frequency;
    MulSplit(q * rate, p, frequency);
    RemainderUnique(ticks * rate, frequency, q * rate + p, s);
  }

  /** Why the division is split: no intermediate value overflows 64 bits unless the result does, as long as one second of
      counter ticks times the rate fits. The plain product already overflows once the result times the counter frequency
      does. */
  lemma SplitAvoidsOverflow(ticks: nat, rate: nat, frequency: nat)
    requires frequency > 0 && frequency * rate < TWO64
    requires ticks * rate / frequency < TWO64
    ensures ticks / frequency * rate < TWO64 && ticks % frequency * rate < TWO64
    ensures ticks / frequency * rate + ticks % frequency * rate / frequency < TWO64
  {
    SplitDivision(ticks, rate, frequency);
  }

  /** The position never goes back while the stream runs. */
  lemma ElapsedGrows(now: int, later: int, start: int, rate: nat, frequency: nat)
    requires frequency > 0 && now <= later
    ensures ElapsedFrames(now, start, rate, frequency) <= ElapsedFrames(later, start, rate, frequency)
  {
    var t, u := if now > start then now - start else 0, if later > start then later - start else 0;
    var a, b := t * rate / frequency, u * rate / frequency;
    DivMod(t * rate, frequency);
    DivMod(u * rate, frequency);
    MulLe(t, u, rate);
    if b < a {
      MulLe(b + 1, a, frequency);
      MulSplit(b, 1, frequency);
    }
  }

  // ---------------------------------------------------------------- positions

  /** The first position an update to `target` hands over: at most a whole buffer is left to copy. */
  function FirstHanded(done: nat, target: nat, size: nat): (from: nat)
    requires done <= target
    ensures done <= from <= target && target - from <= size
  {
    if target - done > size then target - size else done
  }

  /** Stream positions from `from` up to `to`. */
  function Span(from: nat, to: nat): (s: seq<nat>)
    requires from <= to
    ensures |s| == to - from && forall k :: 0 <= k < |s| ==> s[k] == from + k
  {
    seq(to - from, k requires 0 <= k => from + k)
  }

  /** The position copied up to, and the positions handed over, by updates that see the given targets. */
  function DoneAfter(done: nat, targets: seq<nat>): (d: nat)
    ensures done <= d
    decreases |targets|
  {
    if targets == [] then done
    else
      var d, t := DoneAfter(done, targets[..|targets| - 1]), targets[|targets| - 1];
      if t <= d then d else t
  }

  function Handed(done: nat, targets: seq<nat>, size: nat): seq<nat>
    decreases |targets|
  {
    if targets == [] then []
    else
      var before := targets[..|targets| - 1];
      var d, t := DoneAfter(done, before), targets[|targets| - 1];
      Handed(done, before, size) + if t <= d then [] else Span(FirstHanded(d, t, size), t)
  }

  /** Positions from `done` on, each once, in order, all before d. */
  ghost predicate InOrder(h: seq<nat>, done: nat, d: nat) {
    && (forall i :: 0 <= i < |h| ==> done <= h[i] < d)
    && (forall i, j :: 0 <= i < j < |h| ==> h[i] < h[j])
  }

  /** Update k is the one that passed position p, and p was more than a buffer old then. */
  ghost predicate TooOldAt(p: nat, done: nat, targets: seq<nat>, size: nat, k: nat) {
    k < |targets| && DoneAfter(done, targets[..k]) <= p && targets[k] - p > size
  }

  ghost predicate Lost(p: nat, done: nat, targets: seq<nat>, size: nat) {
    exists k: nat :: TooOldAt(p, done, targets, size, k)
  }

  /** Over any updates of one run positions are handed over in order, each at most once, from the start position up to
      the furthest target; and one is missing exactly if it was more than a buffer old at the very update that passed it. */
  lemma {:induction false} HandedOnceInOrder(done: nat, targets: seq<nat>, size: nat)
    ensures InOrder(Handed(done, targets, size), done, DoneAfter(done, targets))
    ensures forall p: nat :: done <= p < DoneAfter(done, targets) ==>
              (p !in Handed(done, targets, size) <==> Lost(p, done, targets, size))
    decreases |targets|
  {
    if targets != [] {
      var before := targets[..|targets| - 1];
      HandedOnceInOrder(done, before, size);
      forall p: nat | done <= p < DoneAfter(done, targets)
        ensures p !in Handed(done, targets, size) <==> Lost(p, done, targets, size)
      {
        if p < DoneAfter(done, before) {
          PassedBefore(p, done, targets, size);
        } else {
          PassedNow(p, done, targets, size);
        }
      }
    }
  }

  /** A position an earlier update passed: the last update does nothing about it. */
  lemma PassedBefore(p: nat, done: nat, targets: seq<nat>, size: nat)
    requires targets != []
    requires var before := targets[..|targets| - 1];
             p < DoneAfter(done, before) && (p !in Handed(done, before, size) <==> Lost(p, done, before, size))
    ensures p !in Handed(done, targets, size) <==> Lost(p, done, targets, size)
  {
    var n := |targets| - 1;
    var before, t := targets[..n], targets[n];
    var d := DoneAfter(done, before);
    if t > d { InSpan(FirstHanded(d, t, size), t, p); }
    forall k: nat | k < n ensures TooOldAt(p, done, targets, size, k) <==> TooOldAt(p, done, before, size, k) {
      assert before[..k] == targets[..k];
    }
    assert !TooOldAt(p, done, targets, size, n);
  }

  /** A position the last update passes. */
  lemma PassedNow(p: nat, done: nat, targets: seq<nat>, size: nat)
    requires targets != []
    requires var before := targets[..|targets| - 1];
             && DoneAfter(done, before) <= p < DoneAfter(done, targets)
             && InOrder(Handed(done, before, size), done, DoneAfter(done, before))
    ensures p !in Handed(done, targets, size) <==> Lost(p, done, targets, size)
  {
    var n := |targets| - 1;
    var t := targets[n];
    assert p !in Handed(done, targets[..n], size);
    InSpan(FirstHanded(DoneAfter(done, targets[..n]), t, size), t, p);
    LostNow(p, done, targets, size);
  }

  /** No earlier update can have lost it. */
  lemma LostNow(p: nat, done: nat, targets: seq<nat>, size: nat)
    requires targets != [] && DoneAfter(done, targets[..|targets| - 1]) <= p
    ensures Lost(p, done, targets, size) <==> targets[|targets| - 1] - p > size
  {
    var n := |targets| - 1;
    assert TooOldAt(p, done, targets, size, n) <==> targets[n] - p > size;
    forall k: nat | k < n ensures !TooOldAt(p, done, targets, size, k) {
      TargetsPassed(done, targets[..n], k);
    }
  }

  lemma {:induction false} TargetsPassed(done: nat, targets: seq<nat>, k: nat)
    requires k < |targets|
    ensures targets[k] <= DoneAfter(done, targets)
    decreases |targets|
  {
    if k < |targets| - 1 { TargetsPassed(done, targets[..|targets| - 1], k); }
  }

  lemma InSpan(from: nat, to: nat, p: nat)
    requires from <= to
    ensures p in Span(from, to) <==> from <= p < to
  {
    if from <= p < to { assert Span(from, to)[p - from] == p; }
  }

  /** Updates that come at least once a buffer hand over every position. */
  lemma {:induction false} NothingSkipped(done: nat, targets: seq<nat>, size: nat)
    requires forall k :: 0 <= k < |targets| ==> targets[k] <= DoneAfter(done, targets[..k]) + size
    ensures Handed(done, targets, size) == Span(done, DoneAfter(done, targets))
    decreases |targets|
  {
    if targets != [] {
      var before := targets[..|targets| - 1];
      forall k | 0 <= k < |before| ensures before[k] <= DoneAfter(done, before[..k]) + size {
        assert before[..k] == targets[..k] && before[k] == targets[k];
      }
      NothingSkipped(done, before, size);
      SpanJoins(done, DoneAfter(done, before), DoneAfter(done, targets));
    }
  }

  lemma SpanJoins(a: nat, b: nat, c: nat)
    requires a <= b <= c
    ensures Span(a, b) + Span(b, c) == Span(a, c)
  {
  }

  // ---------------------------------------------------------------- the copier

  /** Frames of the cyclic buffer from stream position `from` on, as the ring gets them. */
  function Frames<F, T>(buffer: seq<F>, from: nat, count: nat, convert: F -> T): (f: seq<T>)
    requires |buffer| > 0
    ensures |f| == count
  {
    Converted(Unread(buffer, from, count), convert)
  }

  lemma FramesJoin<F, T>(buffer: seq<F>, from: nat, a: nat, b: nat, convert: F -> T)
    requires |buffer| > 0
    ensures Frames(buffer, from, a + b, convert) == Frames(buffer, from, a, convert) + Frames(buffer, from + a, b, convert)
  {
    UnreadRest(buffer, from, a + b, a);
    UnreadStart(buffer, from, a, a + b);
  }

  lemma FrameAt<F, T>(buffer: seq<F>, from: nat, count: nat, convert: F -> T, j: nat)
    requires |buffer| > 0 && j < count
    ensures 0 <= (from + j) % |buffer| && Frames(buffer, from, count, convert)[j] == convert(buffer[(from + j) % |buffer|])
  {
    UnreadAt(buffer, from, count, j);
    PlaceOfIs(from + j, |buffer|);
  }

  /** What updates that see the given targets hand over, when the engine's buffer holds contents[k] at update k. */
  function HandedFrames<F, T>(done: nat, targets: seq<nat>, contents: seq<seq<F>>, size: nat, convert: F -> T): seq<T>
    requires size > 0 && |contents| == |targets| && forall k :: 0 <= k < |contents| ==> |contents[k]| == size
    decreases |targets|
  {
    if targets == [] then []
    else
      var n := |targets| - 1;
      var d, t := DoneAfter(done, targets[..n]), targets[n];
      HandedFrames(done, targets[..n], contents[..n], size, convert)
      + if t <= d then [] else var from := FirstHanded(d, t, size); Frames(contents[n], from, t - from, convert)
  }

  /** Frame i is that of position p, taken from its place in the buffer at the update that passed p. */
  ghost predicate FromBuffer<F(!new), T(!new)>(x: T, p: nat, done: nat, targets: seq<nat>, contents: seq<seq<F>>, convert: F -> T) {
    exists k: nat :: TakenAt(x, p, done, targets, contents, convert, k)
  }

  ghost predicate TakenAt<F, T>(x: T, p: nat, done: nat, targets: seq<nat>, contents: seq<seq<F>>, convert: F -> T, k: nat) {
    && k < |targets| && k < |contents| && contents[k] != [] && DoneAfter(done, targets[..k]) <= p < targets[k]
    && x == convert(contents[k][p % |contents[k]|])
  }

  /** The frames handed over are those of the positions handed over, one each, in order, each as it stood in the buffer at
      the update that passed its position. */
  lemma {:induction false} FramesOfPositions<F(!new), T(!new)>(done: nat, targets: seq<nat>, contents: seq<seq<F>>, size: nat,
                                                               convert: F -> T)
    requires size > 0 && |contents| == |targets| && forall k :: 0 <= k < |contents| ==> |contents[k]| == size
    ensures AllFromBuffer(Handed(done, targets, size), HandedFrames(done, targets, contents, size, convert), done, targets,
                          contents, convert)
    decreases |targets|
  {
    if targets != [] {
      var n := |targets| - 1;
      FramesOfPositions(done, targets[..n], contents[..n], size, convert);
      var h, f := Handed(done, targets[..n], size), HandedFrames(done, targets[..n], contents[..n], size, convert);
      StillFromBuffer(h, f, done, targets, contents, convert);
      LastFromBuffer(h, f, Handed(done, targets, size), HandedFrames(done, targets, contents, size, convert), done, targets,
                     contents, size, convert);
    }
  }

  ghost predicate AllFromBuffer<F(!new), T(!new)>(h: seq<nat>, f: seq<T>, done: nat, targets: seq<nat>, contents: seq<seq<F>>,
                                                  convert: F -> T) {
    |f| == |h| && forall i :: 0 <= i < |h| ==> FromBuffer(f[i], h[i], done, targets, contents, convert)
  }

  /** What earlier updates handed over. */
  lemma StillFromBuffer<F(!new), T(!new)>(h: seq<nat>, f: seq<T>, done: nat, targets: seq<nat>, contents: seq<seq<F>>,
                                          convert: F -> T)
    requires targets != [] && |contents| == |targets|
    requires AllFromBuffer(h, f, done, targets[..|targets| - 1], contents[..|targets| - 1], convert)
    ensures AllFromBuffer(h, f, done, targets, contents, convert)
  {
    var n := |targets| - 1;
    forall i | 0 <= i < |h| ensures FromBuffer(f[i], h[i], done, targets, contents, convert) {
      assert FromBuffer(f[i], h[i], done, targets[..n], contents[..n], convert);
      var k: nat :| TakenAt(f[i], h[i], done, targets[..n], contents[..n], convert, k);
      assert targets[..n][..k] == targets[..k];
      assert TakenAt(f[i], h[i], done, targets, contents, convert, k);
    }
  }

  /** What the last update adds. */
  lemma LastFromBuffer<F(!new), T(!new)>(h: seq<nat>, f: seq<T>, h': seq<nat>, f': seq<T>, done: nat, targets: seq<nat>,
                                         contents: seq<seq<F>>, size: nat, convert: F -> T)
    requires size > 0 && targets != [] && |contents| == |targets| && |contents[|targets| - 1]| == size
    requires AllFromBuffer(h, f, done, targets, contents, convert)
    requires var n := |targets| - 1;
             var d, t := DoneAfter(done, targets[..n]), targets[n];
             && Same(h', h + if t <= d then [] else Span(FirstHanded(d, t, size), t))
             && Same(f', f + if t <= d then [] else var from := FirstHanded(d, t, size); Frames(contents[n], from, t - from, convert))
    ensures AllFromBuffer(h', f', done, targets, contents, convert)
  {
    var n := |targets| - 1;
    var d, t := DoneAfter(done, targets[..n]), targets[n];
    if t <= d {
      assert h + [] == h && f + [] == f;
    } else {
      var from := FirstHanded(d, t, size);
      var s, g := Span(from, t), Frames(contents[n], from, t - from, convert);
      forall j: nat | j < |s| ensures FromBuffer(g[j], s[j], done, targets, contents, convert) {
        FrameAt(contents[n], from, t - from, convert, j);
        assert TakenAt(g[j], s[j], done, targets, contents, convert, n);
      }
      BothFromBuffer(h, s, f, g, done, targets, contents, convert);
    }
  }

  lemma BothFromBuffer<F(!new), T(!new)>(h: seq<nat>, s: seq<nat>, f: seq<T>, g: seq<T>, done: nat, targets: seq<nat>,
                                         contents: seq<seq<F>>, convert: F -> T)
    requires AllFromBuffer(h, f, done, targets, contents, convert) && AllFromBuffer(s, g, done, targets, contents, convert)
    ensures AllFromBuffer(h + s, f + g, done, targets, contents, convert)
  {
    forall i | 0 <= i < |h + s| ensures FromBuffer((f + g)[i], (h + s)[i], done, targets, contents, convert) {
      if i < |h| {
        assert FromBuffer(f[i], h[i], done, targets, contents, convert);
      } else {
        assert FromBuffer(g[i - |h|], s[i - |h|], done, targets, contents, convert);
      }
    }
  }

  /** A chunk that stays within the buffer is a slice of it. */
  lemma FramesInPlace<F, T>(buffer: seq<F>, position: nat, n: nat, convert: F -> T)
    requires |buffer| > 0 && position % |buffer| + n <= |buffer|
    ensures 0 <= position % |buffer|
    ensures Frames(buffer, position, n, convert) == Converted(buffer[position % |buffer|..][..n], convert)
  {
    PlaceOfIs(position, |buffer|);
    forall k | 0 <= k < n ensures Unread(buffer, position, n)[k] == buffer[position % |buffer|..][..n][k] {
      UnreadAt(buffer, position, n, k);
      PlaceOfAdd(position, k, |buffer|);
    }
  }

  function Converted<F, T>(frames: seq<F>, convert: F -> T): (s: seq<T>)
    ensures |s| == |frames| && forall k :: 0 <= k < |s| ==> s[k] == convert(frames[k])
  {
    seq(|frames|, k requires 0 <= k < |frames| => convert(frames[k]))
  }

  /** Queue q is q0 after a write of `count` frames from stream position `from` on. */
  ghost predicate HandedOver<F, T>(q0: Queue<T>, buffer: seq<F>, from: nat, count: nat, convert: F -> T,
                                   q: Queue<T>) {
    |buffer| > 0 && Same(q, Write(q0, Frames(buffer, from, count, convert)))
  }

  lemma NothingHandedOver<F, T>(q0: Queue<T>, buffer: seq<F>, from: nat, convert: F -> T)
    requires |buffer| > 0 && |q0.frames| <= CAPACITY
    ensures HandedOver(q0, buffer, from, 0, convert, q0)
  {
    assert q0.frames + Frames(buffer, from, 0, convert) == q0.frames;
  }

  /** One more chunk written. */
  lemma ChunkJoins<F, T>(q0: Queue<T>, q: Queue<T>, q': Queue<T>, buffer: seq<F>,
                         from: nat, done: nat, chunk: nat, convert: F -> T)
    requires HandedOver(q0, buffer, from, done, convert, q)
    requires HandedOver(q, buffer, from + done, chunk, convert, q')
    ensures HandedOver(q0, buffer, from, done + chunk, convert, q')
  {
    FramesJoin(buffer, from, done, chunk, convert);
    WriteSplits(q0, Frames(buffer, from, done, convert), Frames(buffer, from + done, chunk, convert));
  }

  ghost predicate Wrote<T>(q0: Queue<T>, src: seq<T>, q: Queue<T>) {
    q == Write(q0, src)
  }

  lemma NothingWritten<T>(q: Queue<T>)
    requires |q.frames| <= CAPACITY
    ensures Wrote(q, [], q)
  {
    assert q.frames + [] == q.frames;
  }

  /** One more update of a run. */
  lemma OneMoreUpdate<F, T>(q0: Queue<T>, q: Queue<T>, q': Queue<T>, done: nat, targets: seq<nat>, contents: seq<seq<F>>,
                            size: nat, convert: F -> T, k: nat)
    requires size > 0 && |contents| == |targets| && k < |targets|
    requires forall i :: 0 <= i < |contents| ==> |contents[i]| == size
    requires Wrote(q0, HandedFrames(done, targets[..k], contents[..k], size, convert), q)
    requires var d, t := DoneAfter(done, targets[..k]), targets[k];
             q' == if t <= d then q else var from := FirstHanded(d, t, size); Write(q, Frames(contents[k], from, t - from, convert))
    ensures Wrote(q0, HandedFrames(done, targets[..k + 1], contents[..k + 1], size, convert), q')
    ensures var d := DoneAfter(done, targets[..k]); DoneAfter(done, targets[..k + 1]) == if targets[k] <= d then d else targets[k]
  {
    assert targets[..k + 1][..k] == targets[..k] && contents[..k + 1][..k] == contents[..k];
    var h := HandedFrames(done, targets[..k], contents[..k], size, convert);
    var d, t := DoneAfter(done, targets[..k]), targets[k];
    if t <= d {
      assert h + [] == h;
    } else {
      var from := FirstHanded(d, t, size);
      WriteSplits(q0, h, Frames(contents[k], from, t - from, convert));
    }
  }

  lemma WroteMore<T>(q0: Queue<T>, q: Queue<T>, q': Queue<T>, all: seq<T>, done: nat, n: nat)
    requires done + n <= |all| && Wrote(q0, all[..done], q) && q' == Write(q, all[done..done + n])
    ensures Wrote(q0, all[..done + n], q')
  {
    WriteSplits(q0, all[..done], all[done..done + n]);
    assert all[..done] + all[done..done + n] == all[..done + n];
  }

  datatype State = Stop | Acquire | Pause | Run

  class WaveStream<F, T> {
    const rate: nat
    const frequency: nat
    var play: Queue<T>         // the cable's ring, as CableQueue specifies it
    var buffer: array<F>       // empty: none allocated
    var running: bool
    var runStart: int
    var framesAtRun: nat
    var framesDone: nat

    ghost predicate Valid()
      reads this
    {
      frequency > 0 && framesAtRun <= framesDone && |play.frames| <= CAPACITY
    }

    constructor (play: Queue<T>, rate: nat, frequency: nat)
      requires |play.frames| <= CAPACITY && frequency > 0
      ensures Valid() && !running && framesDone == 0 && buffer.Length == 0
      ensures this.play == play && this.rate == rate && this.frequency == frequency
    {
      this.play, this.rate, this.frequency := play, rate, frequency;
      buffer := new F[0];
      running, runStart, framesAtRun, framesDone := false, 0, 0, 0;
    }

    /** Where the stream stands at counter value `now`. */
    function Position(now: int): nat
      reads this
      requires frequency > 0
    {
      framesAtRun + ElapsedFrames(now, runStart, rate, frequency)
    }

    /** UpdateLocked(). Float frames at unity gain go straight to the ring (`convert` is then the identity on the samples);
        others pass through the scratch buffer, 256 frames at a time. Either way it is one write of the frames at the
        positions from FirstHanded up to the target, each from the buffer place of its position. */
    method Update(now: int, direct: bool, convert: F -> T)
      requires Valid()
      modifies this`framesDone, this`play
      ensures Valid()
      ensures var target := old(Position(now));
        if !running || buffer.Length == 0 || target <= old(framesDone)
        then framesDone == old(framesDone) && play == old(play)
        else
          var from := FirstHanded(old(framesDone), target, buffer.Length);
          framesDone == target
          && play == Write(old(play), Frames(old(buffer[..]), from, target - from, convert))
    {
      if !running || buffer.Length == 0 { return; }
      var target := Position(now);
      if target <= framesDone { return; }
      SkipLost(target);
      CopyPending(target - framesDone, direct, convert);
    }

    function Positions(nows: seq<int>): (targets: seq<nat>)
      reads this
      requires frequency > 0
      ensures |targets| == |nows| && forall k :: 0 <= k < |nows| ==> targets[k] == Position(nows[k])
    {
      if nows == [] then [] else Positions(nows[..|nows| - 1]) + [Position(nows[|nows| - 1])]
    }

    /** A run of updates, the engine having filled its buffer with contents[k] before update k: together one write of the
        frames of the positions handed over. */
    method UpdateAll(nows: seq<int>, contents: seq<seq<F>>, direct: bool, convert: F -> T)
      requires Valid() && running && buffer.Length > 0
      requires |contents| == |nows| && forall k :: 0 <= k < |contents| ==> |contents[k]| == buffer.Length
      modifies this`framesDone, this`play, buffer
      ensures Valid() && framesDone == DoneAfter(old(framesDone), old(Positions(nows)))
      ensures play == Write(old(play), HandedFrames(old(framesDone), old(Positions(nows)), contents, buffer.Length, convert))
    {
      ghost var done, targets, q0 := framesDone, Positions(nows), play;
      NothingWritten(q0);
      assert targets[..0] == [] && contents[..0] == [];
      for k := 0 to |nows|
        invariant Valid() && framesDone == DoneAfter(done, targets[..k])
        invariant Wrote(q0, HandedFrames(done, targets[..k], contents[..k], buffer.Length, convert), play)
      {
        Fill(contents[k]);
        ghost var q := play;
        Update(nows[k], direct, convert);
        OneMoreUpdate(q0, q, play, done, targets, contents, buffer.Length, convert, k);
      }
      assert targets[..|nows|] == targets && contents[..|nows|] == contents;
    }

    /** What the audio engine does to its buffer. */
    method Fill(content: seq<F>)
      requires |content| == buffer.Length
      modifies buffer
      ensures buffer[..] == content
    {
      for i := 0 to |content|
        invariant buffer[..i] == content[..i]
      {
        buffer[i] := content[i];
      }
    }

    /** Falling behind by more than a buffer loses the oldest positions. */
    method SkipLost(target: nat)
      requires framesDone <= target
      modifies this`framesDone
      ensures framesDone == FirstHanded(old(framesDone), target, buffer.Length)
    {
      if target - framesDone > buffer.Length {
        framesDone := target - buffer.Length;
      }
    }

    /** The loop of UpdateLocked(). */
    method CopyPending(count: nat, direct: bool, convert: F -> T)
      requires Valid() && buffer.Length > 0
      modifies this`framesDone, this`play
      ensures Valid() && framesDone == old(framesDone) + count
      ensures HandedOver(old(play), old(buffer[..]), old(framesDone), count, convert, play)
    {
      ghost var from, q0, b := framesDone, play, buffer[..];
      var pending: nat := count;
      NothingHandedOver(q0, b, from, convert);
      while pending > 0
        invariant Valid() && pending <= count && framesDone == from + (count - pending) && buffer[..] == b
        invariant HandedOver(q0, b, from, count - pending, convert, play)
        decreases pending
      {
        ghost var q, at := play, framesDone;
        assert buffer[..] == b;
        var chunk := CopyToEnd(pending, direct, convert);
        assert HandedOver(q, b, at, chunk, convert, play);
        ChunkJoins(q0, q, play, b, from, count - pending, chunk, convert);
        pending := pending - chunk;
      }
    }

    /** One round of the loop: at least one frame, up to the end of the buffer at most. */
    method CopyToEnd(pending: nat, direct: bool, convert: F -> T) returns (chunk: nat)
      requires Valid() && buffer.Length > 0 && pending > 0
      modifies this`framesDone, this`play
      ensures Valid() && 0 < chunk <= pending && framesDone == old(framesDone) + chunk
      ensures HandedOver(old(play), old(buffer[..]), old(framesDone), chunk, convert, play)
    {
      DivMod(framesDone, buffer.Length);
      var offset := framesDone % buffer.Length;
      chunk := buffer.Length - offset;
      if chunk > pending { chunk := pending; }
      FramesInPlace(buffer[..], framesDone, chunk, convert);
      CopyChunk(offset, chunk, direct, convert);
      framesDone := framesDone + chunk;
    }

    /** One chunk of the buffer, up to its end at most. */
    method CopyChunk(offset: nat, chunk: nat, direct: bool, convert: F -> T)
      requires Valid() && offset + chunk <= buffer.Length
      modifies this`play
      ensures Valid() && play == Write(old(play), Converted(old(buffer[offset..][..chunk]), convert))
    {
      var frames := buffer[offset..][..chunk];
      if direct {
        play := Write(play, Converted(frames, convert));
      } else {
        CopyThroughScratch(frames, convert);
      }
    }

    /** The scratch loop. */
    method CopyThroughScratch(frames: seq<F>, convert: F -> T)
      requires Valid()
      modifies this`play
      ensures Valid() && play == Write(old(play), Converted(frames, convert))
    {
      ghost var q0, all := play, Converted(frames, convert);
      var done := 0;
      assert q0.frames + all[..0] == q0.frames;
      while done < |frames|
        invariant done <= |frames| && Valid() && Wrote(q0, all[..done], play)
      {
        var n := if |frames| - done < SCRATCH_FRAMES then |frames| - done else SCRATCH_FRAMES;
        var scratch := Converted(frames[done..done + n], convert);
        assert scratch == all[done..done + n];
        ghost var q := play;
        play := Write(play, scratch);
        WroteMore(q0, q, play, all, done, n);
        done := done + n;
      }
      assert all[..|frames|] == all;
    }

    /** SetState(): a run starts at the position reached so far; leaving RUN copies up to that moment first; STOP goes
        back to the start of the buffer. */
    method SetState(state: State, now: int, direct: bool, convert: F -> T)
      requires Valid()
      modifies this
      ensures Valid() && buffer == old(buffer) && running == state.Run?
      ensures state.Run? && !old(running) ==> runStart == now && framesAtRun == framesDone && Position(now) == framesDone
      ensures !state.Run? && old(running) && buffer.Length > 0 ==>
                var target := old(Position(now));
                var from := if target <= old(framesDone) then target else FirstHanded(old(framesDone), target, buffer.Length);
                && (!state.Stop? ==> framesDone == if target <= old(framesDone) then old(framesDone) else target)
                && play == Write(old(play), Frames(old(buffer[..]), from, target - from, convert))
      ensures state.Run? == old(running) || buffer.Length == 0 ==> play == old(play)
      ensures state.Stop? ==> framesDone == 0 && framesAtRun == 0
      ensures !state.Stop? && (state.Run? || !old(running)) ==> framesDone == old(framesDone)
    {
      if state.Run? && !running {
        runStart := now;
        framesAtRun := framesDone;
        running := true;
      } else if !state.Run? && running {
        Update(now, direct, convert);
        running := false;
      }
      if state.Stop? {
        framesDone, framesAtRun := 0, 0;
      }
    }
  }
}
