/** One direction of a Virtual Cable as a value: a bounded drop-oldest sequence of frames with priming, delayed trimming
    and adaptive latency. CableRing implements it over a circular buffer. */
module CableQueue {
  import opened Sequences

  const CAPACITY: nat := 8192     // kFrames
  const TRIM_AFTER: nat := 4096   // kTrimAfterFrames

  /** `over` counts the frames read in a row with the queue above prime + slack; the two counters are unbounded here. */
  datatype Queue<T> = Queue(frames: seq<T>, primed: bool, extra: nat, over: nat, underruns: nat, drops: nat)

  /** clear(): the counters stay. */
  function Clear<T>(q: Queue<T>): Queue<T> {
    q.(frames := [], primed := false, extra := 0, over := 0)
  }

  /** The newest n frames; the rest count as dropped. */
  function KeepNewest<T>(q: Queue<T>, n: nat): Queue<T> {
    if |q.frames| <= n then q
    else q.(frames := q.frames[|q.frames| - n..], drops := q.drops + (|q.frames| - n))
  }

  /** write(): append, then drop the oldest past the capacity. */
  function Write<T>(q: Queue<T>, src: seq<T>): Queue<T> {
    KeepNewest(q.(frames := q.frames + src), CAPACITY)
  }

  /** What one read() asks for. */
  datatype Ask = Ask(n: nat, prime: nat, slack: nat, grow: nat, maxPrime: nat)

  /** The frames the reader waits for: prime plus the adaptive part, at most the ring. */
  function Target<T>(q: Queue<T>, ask: Ask): (p: nat)
    ensures p <= CAPACITY
  {
    if ask.prime + q.extra > CAPACITY then CAPACITY else ask.prime + q.extra
  }

  /** Not primed, and not enough queued to start. */
  predicate Waits<T>(q: Queue<T>, ask: Ask) {
    !q.primed && (|q.frames| < Target(q, ask) || q.frames == [])
  }

  /** More than prime + slack queued. */
  predicate OverFull<T>(q: Queue<T>, ask: Ask) {
    |q.frames| > Target(q, ask) + ask.slack
  }

  /** Starting: a stale backlog goes. */
  function Primed<T>(q: Queue<T>, ask: Ask): Queue<T> {
    if q.primed then q
    else if OverFull(q, ask) then KeepNewest(q, Target(q, ask)).(primed := true)
    else q.(primed := true)
  }

  /** Trimming: only a queue that stays over-full for TRIM_AFTER frames of reading. */
  function Trimmed<T>(q: Queue<T>, ask: Ask): Queue<T> {
    if !OverFull(q, ask) then q.(over := 0)
    else if q.over + ask.n >= TRIM_AFTER then KeepNewest(q, Target(q, ask)).(over := 0)
    else q.(over := q.over + ask.n)
  }

  /** The queue a delivering read takes its frames from. */
  function Ready<T>(q: Queue<T>, ask: Ask): Queue<T> {
    Trimmed(Primed(q, ask), ask)
  }

  /** How many frames a read takes. */
  function Takes<T>(q: Queue<T>, ask: Ask): (n: nat)
    ensures n <= ask.n
  {
    if Waits(q, ask) then 0
    else if ask.n < |Ready(q, ask).frames| then ask.n else |Ready(q, ask).frames|
  }

  /** The queue after a read. */
  function AfterRead<T>(q: Queue<T>, ask: Ask): Queue<T> {
    if Waits(q, ask) then q
    else
      var r := Ready(q, ask);
      var take := Takes(q, ask);
      var rest := r.(frames := r.frames[take..]);
      if take == ask.n then rest
      else rest.(underruns := r.underruns + 1, primed := false,
                 extra := if ask.grow > 0 && ask.prime + r.extra + ask.grow <= ask.maxPrime then r.extra + ask.grow else r.extra)
  }

  function Silence<T>(n: nat, silence: T): (s: seq<T>)
    ensures |s| == n
  {
    seq(n, _ => silence)
  }

  /** What a read delivers: the frames it takes, then silence. */
  function Delivers<T>(q: Queue<T>, ask: Ask, silence: T): (out: seq<T>)
    ensures |out| == ask.n
  {
    (if Waits(q, ask) then [] else Ready(q, ask).frames[..Takes(q, ask)]) + Silence(ask.n - Takes(q, ask), silence)
  }

  // ---------------------------------------------------------------- writing

  /** Block boundaries do not matter to a write, drop count included. */
  lemma WriteSplits<T>(q: Queue<T>, a: seq<T>, b: seq<T>)
    ensures Write(q, a + b) == Write(Write(q, a), b)
  {
    var all := q.frames + a;
    assert q.frames + (a + b) == all + b;
    if |all| > CAPACITY {
      var over := |all| - CAPACITY;
      assert Write(q, a).frames == all[over..];
      assert all[over..] + b == (all + b)[over..];
      if |all + b| > CAPACITY {
        assert (all + b)[over..][|b|..] == (all + b)[over + |b|..];
      }
    }
  }

  /** Writing several chunks one after the other. */
  function WriteAll<T>(q: Queue<T>, chunks: seq<seq<T>>): Queue<T>
    decreases |chunks|
  {
    if chunks == [] then q else WriteAll(Write(q, chunks[0]), chunks[1..])
  }

  lemma {:induction false} WriteAllIsOneWrite<T>(q: Queue<T>, chunks: seq<seq<T>>)
    requires |q.frames| <= CAPACITY
    ensures WriteAll(q, chunks) == Write(q, Joined(chunks))
    decreases |chunks|
  {
    if chunks == [] {
      assert q.frames + [] == q.frames;
    } else {
      WriteAllIsOneWrite(Write(q, chunks[0]), chunks[1..]);
      WriteSplits(q, chunks[0], Joined(chunks[1..]));
    }
  }

  // ---------------------------------------------------------------- histories

  datatype Op<T> = Put(src: seq<T>) | Get(ask: Ask)

  function Apply<T>(q: Queue<T>, op: Op<T>): Queue<T> {
    match op
    case Put(src) => Write(q, src)
    case Get(ask) => AfterRead(q, ask)
  }

  /** The queue after a history of calls. */
  function After<T>(q: Queue<T>, ops: seq<Op<T>>): Queue<T>
    decreases |ops|
  {
    if ops == [] then q else Apply(After(q, ops[..|ops| - 1]), ops[|ops| - 1])
  }

  /** Every frame ever written. */
  function Stream<T>(ops: seq<Op<T>>): seq<T>
    decreases |ops|
  {
    if ops == [] then []
    else
      var before := Stream(ops[..|ops| - 1]);
      if ops[|ops| - 1].Put? then before + ops[|ops| - 1].src else before
  }

  /** How many frames the reads have taken. */
  function Taken<T>(q: Queue<T>, ops: seq<Op<T>>): nat
    decreases |ops|
  {
    if ops == [] then 0
    else
      var last := ops[|ops| - 1];
      Taken(q, ops[..|ops| - 1]) + (if last.Get? then Takes(After(q, ops[..|ops| - 1]), last.ask) else 0)
  }

  /** The queue holds the newest part of the stream. */
  ghost predicate Newest<T>(frames: seq<T>, stream: seq<T>) {
    |frames| <= |stream| && frames == stream[|stream| - |frames|..]
  }

  lemma KeepConserves<T>(q: Queue<T>, n: nat, stream: seq<T>)
    requires Newest(q.frames, stream)
    ensures Newest(KeepNewest(q, n).frames, stream) && q.drops <= KeepNewest(q, n).drops
    ensures |KeepNewest(q, n).frames| + KeepNewest(q, n).drops == |q.frames| + q.drops
  {
  }

  lemma ReadyConserves<T>(q: Queue<T>, ask: Ask, stream: seq<T>)
    requires Newest(q.frames, stream)
    ensures var r := Ready(q, ask);
            Newest(r.frames, stream) && |r.frames| + r.drops == |q.frames| + q.drops && q.drops <= r.drops
            && |r.frames| <= |q.frames|
  {
    KeepConserves(q, Target(q, ask), stream);
    KeepConserves(Primed(q, ask), Target(Primed(q, ask), ask), stream);
  }

  lemma WriteConserves<T>(q: Queue<T>, src: seq<T>, stream: seq<T>)
    requires Newest(q.frames, stream)
    ensures var q' := Write(q, src);
            && |q'.frames| <= CAPACITY && Newest(q'.frames, stream + src) && q.drops <= q'.drops
            && |q'.frames| + q'.drops == |q.frames| + q.drops + |src|
  {
    assert q.frames + src == (stream + src)[|stream| - |q.frames|..];
    KeepConserves(q.(frames := q.frames + src), CAPACITY, stream + src);
  }

  lemma ReadConserves<T>(q: Queue<T>, ask: Ask, stream: seq<T>)
    requires |q.frames| <= CAPACITY && Newest(q.frames, stream)
    ensures var q' := AfterRead(q, ask);
            && |q'.frames| <= CAPACITY && Newest(q'.frames, stream) && q.drops <= q'.drops
            && |q'.frames| + q'.drops + Takes(q, ask) == |q.frames| + q.drops
  {
    if !Waits(q, ask) {
      ReadyConserves(q, ask, stream);
    }
  }

  /** A read takes consecutive frames of the stream, right after those that left the queue before and those that this
      very read drops. */
  lemma ReadSlice<T>(q: Queue<T>, ask: Ask, silence: T, stream: seq<T>) returns (at: nat)
    requires Newest(q.frames, stream)
    ensures q.drops <= AfterRead(q, ask).drops && at == |stream| - |q.frames| + (AfterRead(q, ask).drops - q.drops)
    ensures at + Takes(q, ask) <= |stream|
    ensures Delivers(q, ask, silence) == stream[at..at + Takes(q, ask)] + Silence(ask.n - Takes(q, ask), silence)
  {
    if Waits(q, ask) {
      at := |stream| - |q.frames|;
      assert stream[at..at] == [];
    } else {
      ReadyConserves(q, ask, stream);
      var ready := Ready(q, ask);
      var take := Takes(q, ask);
      at := |stream| - |ready.frames|;
      assert stream[at..][..take] == stream[at..at + take];
      assert AfterRead(q, ask).drops == ready.drops;
    }
  }

  /** From a cleared queue, after any history: the queue is the newest part of everything written, never more than the
      capacity; and frames written = taken + dropped since then + still queued. */
  lemma {:induction false} Conservation<T>(q: Queue<T>, ops: seq<Op<T>>)
    requires q.frames == []
    ensures var s, r := Stream(ops), After(q, ops);
            && Newest(r.frames, s) && |r.frames| <= CAPACITY && q.drops <= r.drops
            && |s| == Taken(q, ops) + (r.drops - q.drops) + |r.frames|
    decreases |ops|
  {
    if ops != [] {
      var before, last := ops[..|ops| - 1], ops[|ops| - 1];
      Conservation(q, before);
      match last {
        case Put(src) => WriteConserves(After(q, before), src, Stream(before));
        case Get(ask) => ReadConserves(After(q, before), ask, Stream(before));
      }
    }
  }

  /** Every frame goes out at most once, in order, unchanged: what a read takes is the part of the written stream that
      comes right after the frames taken and dropped before it, counting those this very read drops. */
  lemma ReadsTheStream<T>(q: Queue<T>, ops: seq<Op<T>>, r: Queue<T>, s: seq<T>, ask: Ask, silence: T) returns (at: nat)
    requires q.frames == [] && r == After(q, ops) && s == Stream(ops)
    ensures at == Taken(q, ops) + (AfterRead(r, ask).drops - q.drops)
    ensures at + Takes(r, ask) <= |s|
    ensures Delivers(r, ask, silence) == s[at..at + Takes(r, ask)] + Silence(ask.n - Takes(r, ask), silence)
  {
    Conservation(q, ops);
    at := ReadSlice(r, ask, silence, s);
  }

  // ---------------------------------------------------------------- adaptive latency

  /** The latency grows only in a read that delivers fewer frames than asked (which then waits to be primed again), by
      `grow` frames, and never past maxPrime. No other call moves it. */
  lemma LatencyGrowsAtUnderrun<T>(q: Queue<T>, op: Op<T>)
    ensures Apply(q, op).extra >= q.extra
    ensures Apply(q, op).extra != q.extra ==>
              && op.Get? && !Waits(q, op.ask) && Takes(q, op.ask) < op.ask.n
              && Apply(q, op).extra == q.extra + op.ask.grow && op.ask.prime + Apply(q, op).extra <= op.ask.maxPrime
              && !Apply(q, op).primed && Apply(q, op).underruns == q.underruns + 1
  {
  }

  /** With one base prime and one limit the latency stays within the limit for good. */
  lemma {:induction false} LatencyBounded<T>(q: Queue<T>, ops: seq<Op<T>>, prime: nat, maxPrime: nat)
    requires q.extra == 0 && prime <= maxPrime
    requires forall k :: 0 <= k < |ops| && ops[k].Get? ==> ops[k].ask.prime == prime && ops[k].ask.maxPrime == maxPrime
    ensures prime + After(q, ops).extra <= maxPrime
    decreases |ops|
  {
    if ops != [] {
      LatencyBounded(q, ops[..|ops| - 1], prime, maxPrime);
      LatencyGrowsAtUnderrun(After(q, ops[..|ops| - 1]), ops[|ops| - 1]);
    }
  }

  // ---------------------------------------------------------------- trimming

  /** The frames asked for by the reads of a history. */
  function Asked<T>(ops: seq<Op<T>>): nat
    decreases |ops|
  {
    if ops == [] then 0 else Asked(ops[..|ops| - 1]) + (if ops[|ops| - 1].Get? then ops[|ops| - 1].ask.n else 0)
  }

  /** Every read of the history from position i on found the queue primed and over-full. */
  ghost predicate OverFullFrom<T>(q: Queue<T>, ops: seq<Op<T>>, i: nat)
    requires i <= |ops|
  {
    forall k :: i <= k < |ops| && ops[k].Get? ==> After(q, ops[..k]).primed && OverFull(After(q, ops[..k]), ops[k].ask)
  }

  /** While primed, `over` is at most what the over-full reads since some point asked for. */
  lemma {:induction false} OverIsEarned<T>(q: Queue<T>, ops: seq<Op<T>>) returns (i: nat)
    requires !q.primed
    ensures i <= |ops|
    ensures After(q, ops).primed ==> OverFullFrom(q, ops, i) && After(q, ops).over <= Asked(ops[i..])
    decreases |ops|
  {
    i := |ops|;
    if ops != [] {
      var before, last := ops[..|ops| - 1], ops[|ops| - 1];
      var j := OverIsEarned(q, before);
      OverStep(After(q, before), last);
      if After(q, before).primed && (last.Put? || OverFull(After(q, before), last.ask)) {
        i := j;
        OverFullOneMore(q, ops, i);
      }
    }
  }

  /** What one call does to `over`. */
  lemma OverStep<T>(r: Queue<T>, op: Op<T>)
    ensures var r' := Apply(r, op);
            r'.primed ==>
              if r.primed && (op.Put? || OverFull(r, op.ask)) then r'.over <= r.over + (if op.Get? then op.ask.n else 0)
              else r'.over == 0
  {
  }

  lemma OverFullOneMore<T>(q: Queue<T>, ops: seq<Op<T>>, i: nat)
    requires i < |ops| && OverFullFrom(q, ops[..|ops| - 1], i)
    requires var r, last := After(q, ops[..|ops| - 1]), ops[|ops| - 1]; last.Get? ==> r.primed && OverFull(r, last.ask)
    ensures OverFullFrom(q, ops, i)
    ensures Asked(ops[i..]) == Asked(ops[..|ops| - 1][i..]) + (if ops[|ops| - 1].Get? then ops[|ops| - 1].ask.n else 0)
  {
    var before := ops[..|ops| - 1];
    assert ops[i..][..|ops[i..]| - 1] == before[i..];
    forall k | i <= k < |ops| && ops[k].Get?
      ensures After(q, ops[..k]).primed && OverFull(After(q, ops[..k]), ops[k].ask)
    {
      if k < |before| { assert ops[..k] == before[..k] && before[k] == ops[k]; }
    }
  }

  /** A primed queue is trimmed only by a read that finds it over-full and ends a row of reads that all found it primed
      and over-full and together, with this one, asked for at least 4096 frames. */
  lemma TrimNeedsLongExcess<T>(q: Queue<T>, ops: seq<Op<T>>, ask: Ask)
    requires !q.primed
    requires After(q, ops).primed && AfterRead(After(q, ops), ask).drops != After(q, ops).drops
    ensures OverFull(After(q, ops), ask)
    ensures exists i :: 0 <= i <= |ops| && OverFullFrom(q, ops, i) && Asked(ops[i..]) + ask.n >= TRIM_AFTER
  {
    var i := OverIsEarned(q, ops);
  }

  // ---------------------------------------------------------------- the margin theorem

  function Sum(ws: seq<nat>): nat
    decreases |ws|
  {
    if ws == [] then 0 else Sum(ws[..|ws| - 1]) + ws[|ws| - 1]
  }

  /** One period: the chunks the writer adds, then a read. */
  function Round<T>(q: Queue<T>, chunks: seq<seq<T>>, ask: Ask): Queue<T> {
    AfterRead(WriteAll(q, chunks), ask)
  }

  function Rounds<T>(q: Queue<T>, rounds: seq<seq<seq<T>>>, ask: Ask): Queue<T>
    decreases |rounds|
  {
    if rounds == [] then q else Round(Rounds(q, rounds[..|rounds| - 1], ask), rounds[|rounds| - 1], ask)
  }

  /** How many frames the writer adds in each period. */
  function Amounts<T>(rounds: seq<seq<seq<T>>>): (ws: seq<nat>)
    ensures |ws| == |rounds|
  {
    seq(|rounds|, k requires 0 <= k < |rounds| => |Joined(rounds[k])|)
  }

  /** Between any two reads the writer falls behind by at most `late` frames. */
  ghost predicate KeepsUp(ws: seq<nat>, n: nat, late: nat) {
    forall i, j :: 0 <= i <= j <= |ws| ==> Sum(ws[i..j]) + late >= n * (j - i)
  }

  lemma SumSlice(ws: seq<nat>, i: nat, j: nat)
    requires i <= j < |ws|
    ensures Sum(ws[i..j + 1]) == Sum(ws[i..j]) + ws[j]
  {
    assert ws[i..j + 1][..j - i] == ws[i..j];
  }

  /** One period of a primed queue that holds enough: the read is served in full, and either the queue keeps what it had
      (plus what came, less what went) or it was cut or filled to at least n + late before the read. */
  lemma RoundServes<T>(q: Queue<T>, chunks: seq<seq<T>>, ask: Ask, late: nat)
    requires q.primed && |q.frames| <= CAPACITY && |q.frames| + |Joined(chunks)| >= ask.n
    requires ask.n + late <= ask.prime <= CAPACITY
    ensures var q' := Round(q, chunks, ask);
            && q'.primed && q'.underruns == q.underruns && q'.extra == q.extra && |q'.frames| <= CAPACITY
            && Takes(WriteAll(q, chunks), ask) == ask.n
            && (|q'.frames| == |q.frames| + |Joined(chunks)| - ask.n || |q'.frames| >= late)
  {
    WriteAllIsOneWrite(q, chunks);
  }

  /** Primed, never underrun since, and holding at least `late` frames plus what the writer gained since period b. */
  ghost predicate InMargin<T>(r: Queue<T>, underruns: nat, extra: nat, ws: seq<nat>, b: nat, n: nat, late: nat) {
    && r.primed && r.underruns == underruns && r.extra == extra && |r.frames| <= CAPACITY
    && b <= |ws| && |r.frames| + n * (|ws| - b) >= late + Sum(ws[b..])
  }

  /** The margin theorem. Reads of n frames against a fixed prime of at least n + late frames: if the writer never falls
      more than `late` frames behind between two reads, then from the read that primed the queue on no read ever
      underruns, whatever the chunk sizes, overflows and trims in between. The witness b is the period of the last
      overflow, trim or priming; from it on the queue's level is known. */
  lemma {:induction false} MarginHolds<T>(q: Queue<T>, rounds: seq<seq<seq<T>>>, ask: Ask, late: nat) returns (b: nat)
    requires q.primed && late <= |q.frames| <= CAPACITY
    requires ask.n + late <= ask.prime <= CAPACITY
    requires KeepsUp(Amounts(rounds), ask.n, late)
    ensures InMargin(Rounds(q, rounds, ask), q.underruns, q.extra, Amounts(rounds), b, ask.n, late)
    decreases |rounds|
  {
    if rounds == [] {
      b := 0;
    } else {
      var before, ws := rounds[..|rounds| - 1], Amounts(rounds);
      BeforeKeepsUp(rounds, ask.n, late);
      var c := MarginHolds(q, before, ask, late);
      b := MarginRound(Rounds(q, before, ask), q.underruns, q.extra, rounds[|rounds| - 1], ws, c, ask, late);
    }
  }

  lemma BeforeKeepsUp<T>(rounds: seq<seq<seq<T>>>, n: nat, late: nat)
    requires |rounds| > 0 && KeepsUp(Amounts(rounds), n, late)
    ensures var k := |rounds| - 1;
            Amounts(rounds[..k]) == Amounts(rounds)[..k] && KeepsUp(Amounts(rounds[..k]), n, late)
  {
    var ws, k := Amounts(rounds), |rounds| - 1;
    assert Amounts(rounds[..k]) == ws[..k];
    forall i, j | 0 <= i <= j <= k ensures Sum(ws[..k][i..j]) + late >= n * (j - i) {
      TakeSlice(ws, k, i, j);
    }
  }

  /** One more period. */
  lemma MarginRound<T>(r: Queue<T>, underruns: nat, extra: nat, chunks: seq<seq<T>>, ws: seq<nat>, c: nat, ask: Ask,
                       late: nat)
    returns (b: nat)
    requires |ws| > 0 && ws[|ws| - 1] == |Joined(chunks)| && KeepsUp(ws, ask.n, late)
    requires ask.n + late <= ask.prime <= CAPACITY && InMargin(r, underruns, extra, ws[..|ws| - 1], c, ask.n, late)
    ensures InMargin(Round(r, chunks, ask), underruns, extra, ws, b, ask.n, late)
  {
    EnoughForARead(ws, c, ask.n, late, |r.frames|);
    RoundServes(r, chunks, ask, late);
    b := MarginStep(ws, c, ask.n, late, |r.frames|, |Round(r, chunks, ask).frames|);
  }

  /** The level known before the last period, counted from period c, is enough for its read. */
  lemma EnoughForARead(ws: seq<nat>, c: nat, n: nat, late: nat, level: nat)
    requires |ws| > 0 && c <= |ws| - 1 && KeepsUp(ws, n, late)
    requires level + n * (|ws| - 1 - c) >= late + Sum(ws[..|ws| - 1][c..])
    ensures level + ws[|ws| - 1] >= n
  {
    var k := |ws| - 1;
    assert ws[..k][c..] == ws[c..k];
    SumSlice(ws, c, k);
    assert Sum(ws[c..k + 1]) + late >= n * (k + 1 - c);
    OneMore(n, k - c);
  }

  /** The level after the last period, counted from c again or from this period on. */
  lemma MarginStep(ws: seq<nat>, c: nat, n: nat, late: nat, level: nat, level': nat) returns (b: nat)
    requires |ws| > 0 && c <= |ws| - 1
    requires level + n * (|ws| - 1 - c) >= late + Sum(ws[..|ws| - 1][c..])
    requires level' == level + ws[|ws| - 1] - n || level' >= late
    ensures b <= |ws| && level' + n * (|ws| - b) >= late + Sum(ws[b..])
  {
    var k := |ws| - 1;
    if level' == level + ws[k] - n {
      b := c;
      assert ws[..k][c..] == ws[c..k] && ws[c..k + 1] == ws[c..];
      SumSlice(ws, c, k);
      OneMore(n, k - c);
    } else {
      b := |ws|;
      assert ws[b..] == [];
    }
  }

  lemma OneMore(n: int, k: int)
    ensures n * (k + 1) == n * k + n
  {
  }

  /** The read that primes the queue leaves it as the margin theorem needs it. */
  lemma PrimingStartsMargin<T>(q: Queue<T>, ask: Ask, late: nat)
    requires !q.primed && !Waits(q, ask) && |q.frames| <= CAPACITY && ask.n + late <= ask.prime <= CAPACITY
    ensures var r := AfterRead(q, ask); r.primed && late <= |r.frames| <= CAPACITY && Takes(q, ask) == ask.n
  {
  }
}
