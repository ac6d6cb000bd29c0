/** WHACableRing, the circular buffer of one direction of a Virtual Cable, against CableQueue. Frames are values: that a
    frame has 8 channels, and each side its own channel count, is not modelled. */
module CableRing {
  import opened Arithmetic
  import opened Bits
  import opened Circular
  import opened CableQueue

  class Ring<T> {
    const data: array<T>
    var read: nat        // read_: place of the oldest queued frame
    var fill: nat
    var primed: bool
    var extra: nat
    var overFrames: nat
    var underruns: nat   // 32 bits
    var drops: nat       // 32 bits
    ghost var q: Queue<T>

    ghost predicate Valid()
      reads this, data
    {
      && data.Length == CAPACITY && read < CAPACITY && fill <= CAPACITY
      && Unread(data[..], read, fill) == q.frames
      && primed == q.primed && extra == q.extra && overFrames == q.over
      && underruns == Wrap32(q.underruns) && drops == Wrap32(q.drops)
    }

    constructor (silence: T)
      ensures Valid() && fresh(data) && q == Queue([], false, 0, 0, 0, 0)
    {
      data := new T[CAPACITY](_ => silence);
      read, fill, primed, extra, overFrames, underruns, drops := 0, 0, false, 0, 0, 0, 0;
      q := Queue([], false, 0, 0, 0, 0);
    }

    method Clear()
      requires Valid()
      modifies this
      ensures Valid() && q == CableQueue.Clear(old(q))
    {
      read, fill, primed, extra, overFrames := 0, 0, false, 0, 0;
      q := CableQueue.Clear(q);
    }

    method ResetExtra()
      requires Valid()
      modifies this
      ensures Valid() && q == old(q).(extra := 0)
    {
      extra := 0;
      q := q.(extra := 0);
    }

    /** Drops the `over` oldest frames. */
    method DropOldest(over: nat)
      requires Valid() && over <= fill
      modifies this
      ensures Valid() && q == KeepNewest(old(q), old(fill) - over)
    {
      Wrap32Sum(q.drops, over);
      UnreadAdvance(data[..], read, fill, over);
      PlaceOfIs(read + over, CAPACITY);
      read := (read + over) % CAPACITY;
      fill := fill - over;
      drops := Wrap32(drops + over);
      q := KeepNewest(q, |q.frames| - over);
    }

    method Write(src: seq<T>)
      requires Valid()
      modifies this, data
      ensures Valid() && q == CableQueue.Write(old(q), src)
    {
      ghost var was := q;
      var n := |src|;
      var skip := 0;
      if n > CAPACITY {
        skip := n - CAPACITY;
        Wrap32Sum(q.drops, skip);
        drops := Wrap32(drops + skip);
        q := q.(drops := q.drops + skip);
        n := CAPACITY;
      }
      if fill + n > CAPACITY {
        DropOldest(fill + n - CAPACITY);
      }
      Append(src, skip);
      assert was.frames[0..] == was.frames;
      WrittenQueue(was, src, q);
    }

    /** What write() keeps goes behind the queued frames. */
    method Append(src: seq<T>, skip: nat)
      requires Valid() && skip <= |src| && fill + (|src| - skip) <= CAPACITY
      modifies this, data
      ensures Valid() && q == old(q).(frames := old(q).frames + src[skip..])
    {
      CopyBehind(src, skip);
      fill := fill + (|src| - skip);
      q := q.(frames := q.frames + src[skip..]);
    }

    /** The copy loop of write(). */
    method CopyBehind(src: seq<T>, skip: nat)
      requires data.Length == CAPACITY && skip <= |src| && fill + (|src| - skip) <= CAPACITY
      modifies data
      ensures Unread(data[..], read, fill + (|src| - skip)) == old(Unread(data[..], read, fill)) + src[skip..]
    {
      PlaceOfIs(read + fill, CAPACITY);
      ghost var kept, part := Unread(data[..], read, fill), src[skip..];
      var w := (read + fill) % CAPACITY;
      var n := |src| - skip;
      for i := 0 to n
        invariant w == PlaceOf(read + fill + i, CAPACITY) && Stored(data[..], read, kept, part, i)
      {
        ghost var b := data[..];
        data[w] := src[skip + i];
        StoredNext(b, data[..], read, kept, part, i, w);
        w := if w + 1 == CAPACITY then 0 else w + 1;
      }
      StoredAll(data[..], read, kept, part);
    }

    /** `silence` is the zero frame. */
    method Read(n: nat, prime: nat, slack: nat, grow: nat, maxPrime: nat, silence: T) returns (out: seq<T>)
      requires Valid()
      modifies this
      ensures Valid()
      ensures var ask := Ask(n, prime, slack, grow, maxPrime);
              q == AfterRead(old(q), ask) && out == Delivers(old(q), ask, silence)
    {
      ghost var ask := Ask(n, prime, slack, grow, maxPrime);
      ghost var was := q;
      var target := if prime + extra > CAPACITY then CAPACITY else prime + extra;
      if !primed && (fill < target || fill == 0) {
        return Silence(n, silence);
      }
      Start(target, slack, ask);
      TrimLongExcess(n, target, slack, ask);
      ghost var ready := q;
      var taken := Take(if n < fill then n else fill);
      if |taken| < n {
        Underrun(prime, grow, maxPrime);
      }
      out := taken + Silence(n - |taken|, silence);
      ReadDone(was, ask, ready, q, taken, silence);
    }

    /** The priming branch of read(). */
    method Start(target: nat, slack: nat, ghost ask: Ask)
      requires Valid() && target == Target(q, ask) && slack == ask.slack
      modifies this
      ensures Valid() && q == Primed(old(q), ask)
    {
      if !primed {
        if fill > target + slack {
          DropOldest(fill - target);
        }
        primed := true;
        q := q.(primed := true);
      }
    }

    /** The trimming branch of read(). */
    method TrimLongExcess(n: nat, target: nat, slack: nat, ghost ask: Ask)
      requires Valid() && target == Target(q, ask) && slack == ask.slack && n == ask.n
      modifies this
      ensures Valid() && q == Trimmed(old(q), ask)
    {
      if fill > target + slack {
        if overFrames + n >= TRIM_AFTER {
          DropOldest(fill - target);
          overFrames := 0;
          q := q.(over := 0);
        } else {
          overFrames := overFrames + n;
          q := q.(over := q.over + n);
        }
      } else {
        overFrames := 0;
        q := q.(over := 0);
      }
    }

    /** The last branch of read(). */
    method Underrun(prime: nat, grow: nat, maxPrime: nat)
      requires Valid()
      modifies this
      ensures Valid()
      ensures q == old(q).(underruns := old(q).underruns + 1, primed := false, extra := q.extra)
      ensures q.extra == if grow > 0 && prime + old(q).extra + grow <= maxPrime then old(q).extra + grow else old(q).extra
    {
      Wrap32Sum(q.underruns, 1);
      underruns := Wrap32(underruns + 1);
      primed := false;
      if grow > 0 && prime + extra + grow <= maxPrime { extra := extra + grow; }
      q := q.(underruns := q.underruns + 1, primed := false, extra := extra);
    }

    /** The copy loop of read(). */
    method Take(take: nat) returns (out: seq<T>)
      requires Valid() && take <= fill
      modifies this
      ensures Valid() && out == old(q).frames[..take] && q == old(q).(frames := old(q).frames[take..])
      ensures extra == old(extra)
    {
      out := [];
      var r := read;
      for i := 0 to take
        invariant unchanged(this)
        invariant r == PlaceOf(read + i, CAPACITY) && out == q.frames[..i]
      {
        UnreadAt(data[..], read, fill, i);
        PlaceOfAdd(read + i, 1, CAPACITY);
        out := out + [data[r]];
        r := if r + 1 == CAPACITY then 0 else r + 1;
      }
      UnreadAdvance(data[..], read, fill, take);
      read := r;
      fill := fill - take;
      q := q.(frames := q.frames[take..]);
    }
  }

  /** The first i frames of `part` are stored behind those kept. */
  ghost predicate Stored<T>(b: seq<T>, read: nat, kept: seq<T>, part: seq<T>, i: nat) {
    |b| == CAPACITY && i <= |part| && Unread(b, read, |kept| + i) == kept + part[..i]
  }

  lemma StoredNext<T>(b: seq<T>, b': seq<T>, read: nat, kept: seq<T>, part: seq<T>, i: nat, w: nat)
    requires Stored(b, read, kept, part, i) && i < |part| && |kept| + |part| <= CAPACITY
    requires w == PlaceOf(read + |kept| + i, CAPACITY) && b' == b[w := part[i]]
    ensures Stored(b', read, kept, part, i + 1)
    ensures PlaceOf(read + |kept| + (i + 1), CAPACITY) == if w + 1 == CAPACITY then 0 else w + 1
  {
    PutOne(b, read, |kept| + i, part[i]);
    PlaceOfAdd(read + |kept| + i, 1, CAPACITY);
    assert part[..i] + [part[i]] == part[..i + 1];
  }

  lemma StoredAll<T>(b: seq<T>, read: nat, kept: seq<T>, part: seq<T>)
    requires Stored(b, read, kept, part, |part|)
    ensures Unread(b, read, |kept| + |part|) == kept + part
  {
    assert part[..|part|] == part;
  }

  /** The steps of read() put together. */
  lemma ReadDone<T>(q: Queue<T>, ask: Ask, ready: Queue<T>, q': Queue<T>, taken: seq<T>, silence: T)
    requires !Waits(q, ask) && ready == Ready(q, ask)
    requires |taken| <= |ready.frames| && taken == ready.frames[..|taken|]
    requires |taken| == if ask.n < |ready.frames| then ask.n else |ready.frames|
    requires var rest := ready.(frames := ready.frames[|taken|..]);
             q' == if |taken| == ask.n then rest
                   else rest.(underruns := ready.underruns + 1, primed := false, extra :=
                     if ask.grow > 0 && ask.prime + ready.extra + ask.grow <= ask.maxPrime then ready.extra + ask.grow
                     else ready.extra)
    ensures q' == AfterRead(q, ask) && taken + Silence(ask.n - |taken|, silence) == Delivers(q, ask, silence)
  {
  }

  /** What write() leaves in the ring is what the queue's write says. */
  lemma WrittenQueue<T>(q: Queue<T>, src: seq<T>, q': Queue<T>)
    requires |q.frames| <= CAPACITY
    requires var n := if |src| < CAPACITY then |src| else CAPACITY;
             var over := if |q.frames| + n > CAPACITY then |q.frames| + n - CAPACITY else 0;
             q' == q.(frames := q.frames[over..] + src[|src| - n..], drops := q.drops + (|src| - n) + over)
    ensures q' == Write(q, src)
  {
    var all := q.frames + src;
    if |all| > CAPACITY {
      assert Write(q, src).frames == all[|all| - CAPACITY..];
    }
  }
}
