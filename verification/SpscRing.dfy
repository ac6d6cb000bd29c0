/** The lock-free single-producer / single-consumer ring of a Network Stream, first as the class the two threads call,
    then as the interleaving of both threads one frame at a time. */
module SpscRing {
  import opened Arithmetic
  import opened Circular
  import opened Bits
  import opened Sequences

  // ---------------------------------------------------------------- indices

  /** static_cast<uint32_t>(head - tail) on 64-bit indices. */
  function Distance(head: nat, tail: nat): nat {
    Wrap32(Wrap64(head - tail))
  }

  /** The place of the k-th frame copied from index `at` on when n are copied: up to the end of the buffer first, the
      rest from its start. */
  function Place(at: nat, cap: nat, n: nat, k: nat): int {
    var first := if n < cap - at then n else cap - at;
    if k < first then at + k else k - first
  }

  /** The mask and the two-part copy put frame number total + k at its remainder by the capacity. */
  lemma PlaceIsRemainder(total: nat, bits: nat, n: nat, k: nat)
    requires bits < 32 && k < n <= Pow2(bits)
    ensures And(Wrap64(total), Pow2(bits) - 1) == total % Pow2(bits)
    ensures 0 <= Place(total % Pow2(bits), Pow2(bits), n, k) < Pow2(bits)
    ensures Place(total % Pow2(bits), Pow2(bits), n, k) == (total + k) % Pow2(bits)
  {
    var cap := Pow2(bits);
    MaskIsRemainder(Wrap64(total), bits);
    WordSizes();
    assert Wrap64(total) == total % TWO64;
    Pow2Sum(64 - bits, bits);
    RemainderOfRemainder(total, Pow2(64 - bits), cap);
    RemainderAdd(total, k, cap);
  }

  lemma DistanceIsFill(written: nat, taken: nat)
    requires taken <= written < taken + TWO32
    ensures Distance(Wrap64(written), Wrap64(taken)) == written - taken
  {
  }

  // ---------------------------------------------------------------- the two threads, frame by frame

  /** write(): the frames it was given, how many it will accept, how many it has copied. */
  datatype Producer<T> = Resting | Copying(data: seq<T>, n: nat, copied: nat)

  /** read() and discard(): how many frames it will take, and those copied out so far. */
  datatype Consumer<T> = Waiting | Taking(n: nat, got: seq<T>) | Discarding(n: nat)

  /** What the consumer has done with frames, in order. */
  datatype Event<T> = Took(frames: seq<T>) | Dropped(count: nat)

  /** `buf`, `head` and `tail` are shared; `written` and `taken` are the indices without wrap-around, `accepted` every
      frame ever published and `events` every finished read() and discard(). */
  datatype State<T> = State(bits: nat, buf: seq<T>, head: nat, tail: nat, producer: Producer<T>, consumer: Consumer<T>,
                            written: nat, taken: nat, accepted: seq<T>, events: seq<Event<T>>)

  datatype Step<T> =
    | Offer(data: seq<T>)       // write(): both indices loaded
    | PutFrame
    | PublishHead
    | Ask(frames: nat)          // read(): both indices loaded
    | TakeFrame
    | PublishTail
    | AskDrop(frames: nat)      // discard(): both indices loaded
    | PublishDrop

  /** allocate() with a capacity of 2^bits. */
  ghost predicate Initial<T(!new)>(s: State<T>) {
    && s.bits < 32 && |s.buf| == Pow2(s.bits) && s.head == s.tail == s.written == s.taken == 0
    && s.producer.Resting? && s.consumer.Waiting? && s.accepted == [] && s.events == []
  }

  predicate Shaped<T>(s: State<T>) {
    && s.bits < 32 && |s.buf| == Pow2(s.bits)
    && (s.producer.Copying? ==> s.producer.n <= |s.producer.data| && s.producer.n <= |s.buf| && s.producer.copied <= s.producer.n)
    && (s.consumer.Taking? ==> |s.consumer.got| <= s.consumer.n <= |s.buf|)
  }

  /** Where the k-th frame of a copy of n frames starting at index `at` goes. */
  function Slot(at: nat, cap: nat, n: nat, k: nat): int
    requires cap > 0
  {
    Place(And(at, cap - 1), cap, n, k)
  }

  predicate Enabled<T>(s: State<T>, step: Step<T>)
    requires Shaped(s)
  {
    match step
    case Offer(_) => s.producer.Resting?
    case PutFrame =>
      s.producer.Copying? && s.producer.copied < s.producer.n
      && 0 <= Slot(s.head, |s.buf|, s.producer.n, s.producer.copied) < |s.buf|
    case PublishHead => s.producer.Copying? && s.producer.copied == s.producer.n
    case Ask(_) => s.consumer.Waiting?
    case TakeFrame =>
      s.consumer.Taking? && |s.consumer.got| < s.consumer.n
      && 0 <= Slot(s.tail, |s.buf|, s.consumer.n, |s.consumer.got|) < |s.buf|
    case PublishTail => s.consumer.Taking? && |s.consumer.got| == s.consumer.n
    case AskDrop(_) => s.consumer.Waiting?
    case PublishDrop => s.consumer.Discarding?
  }

  function Do<T>(s: State<T>, step: Step<T>): State<T>
    requires Shaped(s) && Enabled(s, step)
  {
    match step
    case Offer(data) =>
      var space := |s.buf| - Distance(s.head, s.tail);
      s.(producer := Copying(data, if |data| < space then |data| else if space < 0 then 0 else space, 0))
    case PutFrame =>
      s.(buf := s.buf[Slot(s.head, |s.buf|, s.producer.n, s.producer.copied) := s.producer.data[s.producer.copied]],
         producer := s.producer.(copied := s.producer.copied + 1))
    case PublishHead =>
      s.(head := Wrap64(s.head + s.producer.n), producer := Resting, written := s.written + s.producer.n,
         accepted := s.accepted + s.producer.data[..s.producer.n])
    case Ask(frames) => s.(consumer := Taking(Min(frames, Distance(s.head, s.tail)) as nat, []))
    case TakeFrame =>
      s.(consumer := s.consumer.(got := s.consumer.got + [s.buf[Slot(s.tail, |s.buf|, s.consumer.n, |s.consumer.got|)]]))
    case PublishTail =>
      s.(tail := Wrap64(s.tail + s.consumer.n), consumer := Waiting, taken := s.taken + s.consumer.n,
         events := s.events + [Took(s.consumer.got)])
    case AskDrop(frames) => s.(consumer := Discarding(Min(frames, Distance(s.head, s.tail))))
    case PublishDrop =>
      s.(tail := Wrap64(s.tail + s.consumer.n), consumer := Waiting, taken := s.taken + s.consumer.n,
         events := s.events + [Dropped(s.consumer.n)])
  }

  /** The events account for the first `upto` accepted frames, once each and in order. */
  ghost predicate InOrder<T>(events: seq<Event<T>>, accepted: seq<T>, upto: nat) {
    if events == [] then upto == 0
    else
      var last := events[|events| - 1];
      var n := if last.Took? then |last.frames| else last.count;
      n <= upto <= |accepted|
      && (last.Took? ==> last.frames == accepted[upto - n..upto])
      && InOrder(events[..|events| - 1], accepted, upto - n)
  }

  /** Frame j of the stream is at its place in the buffer. */
  ghost predicate Stored<T>(buf: seq<T>, accepted: seq<T>, j: nat) {
    |buf| > 0 && j < |accepted| && buf[PlaceOf(j, |buf|)] == accepted[j]
  }

  /** The k-th frame of a write that begins at frame number `written` is copied. */
  ghost predicate Copied<T>(buf: seq<T>, data: seq<T>, written: nat, k: nat) {
    |buf| > 0 && k < |data| && buf[PlaceOf(written + k, |buf|)] == data[k]
  }

  ghost predicate Inv<T>(s: State<T>) {
    && Shaped(s)
    && s.head == Wrap64(s.written) && s.tail == Wrap64(s.taken)
    && s.taken <= s.written <= s.taken + |s.buf| && |s.accepted| == s.written
    && (forall j :: s.taken <= j < s.written ==> Stored(s.buf, s.accepted, j))
    && (s.producer.Copying? ==>
      && s.written + s.producer.n <= s.taken + |s.buf|
      && forall k :: 0 <= k < s.producer.copied ==> Copied(s.buf, s.producer.data, s.written, k))
    && (s.consumer.Taking? ==>
      s.taken + s.consumer.n <= s.written
      && s.consumer.got == s.accepted[s.taken..s.taken + |s.consumer.got|])
    && (s.consumer.Discarding? ==> s.taken + s.consumer.n <= s.written)
    && InOrder(s.events, s.accepted, s.taken)
  }

  lemma FillKnown<T>(s: State<T>)
    requires Inv(s)
    ensures Distance(s.head, s.tail) == s.written - s.taken
  {
    WordSizes();
    Pow2Less(s.bits, 32);
    DistanceIsFill(s.written, s.taken);
  }

  lemma SlotIsPlace(total: nat, bits: nat, n: nat, k: nat)
    requires bits < 32 && k < n <= Pow2(bits)
    ensures 0 < Pow2(bits) && Slot(Wrap64(total), Pow2(bits), n, k) == PlaceOf(total + k, Pow2(bits))
  {
    PlaceIsRemainder(total, bits, n, k);
    PlaceOfIs(total + k, Pow2(bits));
  }

  /** Copying a frame overwrites none that is unread or copied before. */
  lemma PutKeepsFrames<T>(buf: seq<T>, accepted: seq<T>, data: seq<T>, taken: nat, written: nat, k: nat)
    requires taken <= written && k < |data| && 0 < |buf| && written + k < taken + |buf|
    requires forall j :: taken <= j < written ==> Stored(buf, accepted, j)
    requires forall i :: 0 <= i < k ==> Copied(buf, data, written, i)
    ensures var buf' := buf[PlaceOf(written + k, |buf|) := data[k]];
            && (forall j :: taken <= j < written ==> Stored(buf', accepted, j))
            && (forall i :: 0 <= i < k + 1 ==> Copied(buf', data, written, i))
  {
    var buf' := buf[PlaceOf(written + k, |buf|) := data[k]];
    forall j | taken <= j < written ensures Stored(buf', accepted, j) {
      PlacesDiffer(j, written + k, |buf|);
      assert Stored(buf, accepted, j);
    }
    forall i | 0 <= i < k ensures Copied(buf', data, written, i) {
      PlacesDiffer(written + i, written + k, |buf|);
      assert Copied(buf, data, written, i);
    }
  }

  lemma PutKeepsInv<T>(s: State<T>)
    requires Inv(s) && s.producer.Copying? && s.producer.copied < s.producer.n
    ensures Enabled(s, PutFrame) && Inv(Do(s, PutFrame))
  {
    SlotIsPlace(s.written, s.bits, s.producer.n, s.producer.copied);
    PutKeepsFrames(s.buf, s.accepted, s.producer.data, s.taken, s.written, s.producer.copied);
  }

  /** The next frame a read copies is the next one of the stream. */
  lemma TakeFindsFrame<T>(s: State<T>)
    requires Inv(s) && s.consumer.Taking? && |s.consumer.got| < s.consumer.n
    ensures Enabled(s, TakeFrame)
    ensures var k := s.taken + |s.consumer.got|;
            k < |s.accepted| && s.buf[Slot(s.tail, |s.buf|, s.consumer.n, |s.consumer.got|)] == s.accepted[k]
  {
    SlotIsPlace(s.taken, s.bits, s.consumer.n, |s.consumer.got|);
    assert Stored(s.buf, s.accepted, s.taken + |s.consumer.got|);
  }

  lemma TakeKeepsInv<T>(s: State<T>)
    requires Inv(s) && s.consumer.Taking? && |s.consumer.got| < s.consumer.n
    ensures Enabled(s, TakeFrame) && Inv(Do(s, TakeFrame))
  {
    TakeFindsFrame(s);
    var s' := Do(s, TakeFrame);
    assert s'.consumer.got == s.accepted[s.taken..s.taken + |s.consumer.got| + 1];
  }

  lemma {:induction false} InOrderExtends<T>(events: seq<Event<T>>, accepted: seq<T>, more: seq<T>, upto: nat)
    requires InOrder(events, accepted, upto)
    ensures InOrder(events, accepted + more, upto)
    decreases |events|
  {
    if events != [] {
      var last := events[|events| - 1];
      var n := if last.Took? then |last.frames| else last.count;
      assert (accepted + more)[upto - n..upto] == accepted[upto - n..upto];
      InOrderExtends(events[..|events| - 1], accepted, more, upto - n);
    }
  }

  lemma PublishHeadKeepsInv<T>(s: State<T>)
    requires Inv(s) && Enabled(s, PublishHead)
    ensures Inv(Do(s, PublishHead))
  {
    var n := s.producer.n;
    var more := s.producer.data[..n];
    var s' := Do(s, PublishHead);
    InOrderExtends(s.events, s.accepted, more, s.taken);
    Wrap64Sum(s.written, n);
    forall j | s.taken <= j < s'.written ensures Stored(s'.buf, s'.accepted, j) {
      if j < s.written {
        assert Stored(s.buf, s.accepted, j);
      } else {
        assert Copied(s.buf, s.producer.data, s.written, j - s.written);
      }
    }
    if s.consumer.Taking? {
      assert s'.accepted[s.taken..s.taken + |s.consumer.got|] == s.accepted[s.taken..s.taken + |s.consumer.got|];
    }
  }

  lemma PublishTailKeepsInv<T>(s: State<T>, step: Step<T>)
    requires Inv(s) && Enabled(s, step) && (step.PublishTail? || step.PublishDrop?)
    ensures Inv(Do(s, step))
  {
    var n := s.consumer.n;
    var s' := Do(s, step);
    Wrap64Sum(s.taken, n);
    assert s'.events[..|s'.events| - 1] == s.events;
  }

  lemma BeginKeepsInv<T>(s: State<T>, step: Step<T>)
    requires Inv(s) && Enabled(s, step) && (step.Offer? || step.Ask? || step.AskDrop?)
    ensures Inv(Do(s, step))
  {
    FillKnown(s);
  }

  lemma StepKeepsInv<T>(s: State<T>, step: Step<T>)
    requires Inv(s) && Enabled(s, step)
    ensures Inv(Do(s, step))
  {
    match step
    case PutFrame => PutKeepsInv(s);
    case TakeFrame => TakeKeepsInv(s);
    case PublishHead => PublishHeadKeepsInv(s);
    case PublishTail => PublishTailKeepsInv(s, step);
    case PublishDrop => PublishTailKeepsInv(s, step);
    case _ => BeginKeepsInv(s, step);
  }

  ghost predicate Runs<T(!new)>(s: State<T>, steps: seq<Step<T>>, s': State<T>)
    decreases |steps|
  {
    if steps == [] then s' == s
    else Shaped(s) && Enabled(s, steps[0]) && Runs(Do(s, steps[0]), steps[1..], s')
  }

  lemma {:induction false} RunKeepsInv<T(!new)>(s: State<T>, steps: seq<Step<T>>, s': State<T>)
    requires Inv(s) && Runs(s, steps, s')
    ensures Inv(s')
    decreases |steps|
  {
    if steps != [] {
      StepKeepsInv(s, steps[0]);
      RunKeepsInv(Do(s, steps[0]), steps[1..], s');
    }
  }

  /** In every interleaving, each side working from the other's index as it was when its call began: what the consumer
      took and dropped accounts for the accepted frames once each, in order and unchanged; the buffer still holds every
      frame it has not taken; no more than the capacity is ever in it; and no copy is ever stuck for a place. All of it
      also across the wrap of the 64-bit indices. */
  lemma RefinesFifo<T(!new)>(s0: State<T>, steps: seq<Step<T>>, s: State<T>)
    requires Initial(s0) && Runs(s0, steps, s)
    ensures InOrder(s.events, s.accepted, s.taken)
    ensures s.taken <= s.written <= s.taken + |s.buf| && |s.accepted| == s.written && |s.buf| > 0
    ensures Unread(s.buf, s.taken, s.written - s.taken) == s.accepted[s.taken..]
    ensures Shaped(s)
    ensures s.producer.Copying? && s.producer.copied < s.producer.n ==> Enabled(s, PutFrame)
    ensures s.consumer.Taking? && |s.consumer.got| < s.consumer.n ==> Enabled(s, TakeFrame)
  {
    RunKeepsInv(s0, steps, s);
    var unread := s.accepted[s.taken..];
    forall k | 0 <= k < s.written - s.taken ensures Unread(s.buf, s.taken, s.written - s.taken)[k] == unread[k] {
      UnreadAt(s.buf, s.taken, s.written - s.taken, k);
      assert Stored(s.buf, s.accepted, s.taken + k);
    }
    if s.producer.Copying? && s.producer.copied < s.producer.n { PutKeepsInv(s); }
    if s.consumer.Taking? && |s.consumer.got| < s.consumer.n { TakeKeepsInv(s); }
  }

  /** A call accepts, or takes, exactly what fits: the wrapped 64-bit difference cut to 32 bits is the true fill. */
  lemma CallsFit<T(!new)>(s0: State<T>, steps: seq<Step<T>>, s: State<T>, step: Step<T>)
    requires Initial(s0) && Runs(s0, steps, s) && Shaped(s) && Enabled(s, step)
    ensures step.Offer? ==> Do(s, step).producer.n == Min(|step.data|, |s.buf| - (s.written - s.taken))
    ensures step.Ask? || step.AskDrop? ==> Do(s, step).consumer.n == Min(step.frames, s.written - s.taken)
  {
    RunKeepsInv(s0, steps, s);
    FillKnown(s);
  }

  // ---------------------------------------------------------------- the class

  /** `head` and `tail` are the 64-bit forms of the indices of a ring of 2^bits frames. */
  ghost predicate Indexed(bits: nat, capacity: nat, head: nat, tail: nat, written: nat, taken: nat) {
    && bits < 32 && capacity == Pow2(bits) && 0 < capacity
    && head == Wrap64(written) && tail == Wrap64(taken) && taken <= written <= taken + capacity
  }

  lemma HeadMoves(bits: nat, capacity: nat, head: nat, tail: nat, written: nat, taken: nat, n: nat)
    requires Indexed(bits, capacity, head, tail, written, taken) && written + n <= taken + capacity
    ensures Indexed(bits, capacity, Wrap64(head + n), tail, written + n, taken)
  {
    Wrap64Sum(written, n);
  }

  lemma TailMoves(bits: nat, capacity: nat, head: nat, tail: nat, written: nat, taken: nat, n: nat)
    requires Indexed(bits, capacity, head, tail, written, taken) && taken + n <= written
    ensures Indexed(bits, capacity, head, Wrap64(tail + n), written, taken + n)
  {
    Wrap64Sum(taken, n);
  }

  /** n frames copied out are the first n unread ones. */
  lemma CopiedFirst<T>(b: seq<T>, from: nat, n: nat, count: nat, dst: seq<T>)
    requires |b| > 0 && n <= count && CopiedFrom(b, PlaceOf(from, |b|), n, dst)
    ensures Same(dst, Unread(b, from, count)[..n])
  {
    CopiedOut(b, from, n, dst);
    UnreadStart(b, from, n, count);
  }

  /** WHASpscRing with frames as values; `written` and `taken` are the indices without wrap-around. */
  class Ring<T(0)> {
    var buf: array<T>
    var capacity: nat
    var head: nat
    var tail: nat
    ghost var bits: nat
    ghost var written: nat
    ghost var taken: nat

    ghost predicate Valid()
      reads this, buf
    {
      capacity == buf.Length && Indexed(bits, capacity, head, tail, written, taken)
    }

    /** The unread frames, oldest first. */
    ghost function Contents(): (c: seq<T>)
      reads this, buf
      requires Valid()
      ensures |c| == written - taken
    {
      Unread(buf[..], taken, written - taken)
    }

    /** allocate(): the smallest power of two that holds capacityFrames, empty. False, and nothing done, for no
        frames. */
    method Allocate(capacityFrames: nat) returns (ok: bool)
      requires capacityFrames <= Pow2(31)
      modifies this
      ensures ok <==> capacityFrames != 0
      ensures !ok ==> unchanged(this)
      ensures ok ==> Valid() && fresh(buf) && Contents() == []
      ensures ok ==> capacityFrames <= capacity && (capacity == 1 || capacity / 2 < capacityFrames)
    {
      if capacityFrames == 0 { return false; }
      var cap := 1;
      ghost var b := 0;
      while cap < capacityFrames
        invariant b <= 31 && cap == Pow2(b) && (cap == 1 || cap / 2 < capacityFrames)
        decreases 31 - b
      {
        cap := 2 * cap;
        b := b + 1;
      }
      buf := new T[cap];
      capacity := cap;
      head, tail := 0, 0;
      bits, written, taken := b, 0, 0;
      return true;
    }

    /** copyIn(): frames from buffer place `at` on, the part past the end to the start; behind the `count` frames from
        frame number `from` on, when that is where they go. */
    method CopyIn(at: nat, src: seq<T>, ghost from: nat, ghost count: nat)
      requires 0 < capacity == buf.Length && count + |src| <= capacity && at == PlaceOf(from + count, capacity)
      modifies buf
      ensures Same(Unread(buf[..], from, count + |src|), old(Unread(buf[..], from, count)) + src)
    {
      ghost var before := buf[..];
      var first := if |src| < capacity - at then |src| else capacity - at;
      forall p | at <= p < at + first {
        buf[p] := src[p - at];
      }
      forall p | 0 <= p < |src| - first {
        buf[p] := src[first + p];
      }
      assert CopiedAt(before, buf[..], at, src);
      CopiedIn(before, buf[..], from, count, src);
    }

    /** copyOut(): n frames from buffer place `at` on. */
    method CopyOut(at: nat, n: nat) returns (dst: seq<T>)
      requires capacity == buf.Length && at < capacity && n <= capacity
      ensures CopiedFrom(buf[..], at, n, dst)
    {
      var first := if n < capacity - at then n else capacity - at;
      dst := buf[at..at + first] + buf[..n - first];
    }

    /** The index arithmetic at one state: the fill, and the two masked indices. */
    lemma Indices()
      requires Valid()
      ensures 0 < capacity && Distance(head, tail) == written - taken
      ensures And(head, capacity - 1) == PlaceOf(written, capacity)
      ensures And(tail, capacity - 1) == PlaceOf(taken, capacity)
    {
      WordSizes();
      Pow2Less(bits, 32);
      DistanceIsFill(written, taken);
      MaskOfIndex(written, bits);
      MaskOfIndex(taken, bits);
    }

    /** write(): appends what fits, and says how much that was. */
    method Write(src: seq<T>) returns (n: nat)
      requires Valid()
      modifies this`head, this`written, buf
      ensures Valid() && n == Min(|src|, capacity - old(|Contents()|))
      ensures Contents() == old(Contents()) + src[..n]
    {
      Indices();
      var space := capacity - Distance(head, tail);
      n := if |src| < space then |src| else space;
      Store(And(head, capacity - 1), src[..n]);
    }

    /** The copy and the head store of write(). */
    method Store(at: nat, src: seq<T>)
      requires Valid() && |src| <= capacity - |Contents()| && at == PlaceOf(written, capacity)
      modifies this`head, this`written, buf
      ensures Valid() && Same(Contents(), old(Contents()) + src)
    {
      ghost var count: nat := written - taken;
      assert taken + count == written;
      CopyIn(at, src, taken, count);
      HeadMoves(bits, capacity, head, tail, written, taken, |src|);
      head := Wrap64(head + |src|);
      written := written + |src|;
      assert written - taken == count + |src|;
    }

    /** read(): takes out what there is, up to `frames`. */
    method Read(frames: nat) returns (dst: seq<T>)
      requires Valid()
      modifies this`tail, this`taken
      ensures Valid() && |dst| == Min(frames, old(|Contents()|))
      ensures dst == old(Contents())[..|dst|] && Contents() == old(Contents())[|dst|..]
    {
      Indices();
      var avail := Distance(head, tail);
      var n := if frames < avail then frames else avail;
      dst := CopyOut(And(tail, capacity - 1), n);
      CopiedFirst(buf[..], taken, n, written - taken, dst);
      Advance(n);
    }

    /** discard(): drops what there is, up to `frames`, without copying. */
    method Discard(frames: nat) returns (n: nat)
      requires Valid()
      modifies this`tail, this`taken
      ensures Valid() && n == Min(frames, old(|Contents()|)) && Contents() == old(Contents())[n..]
    {
      Indices();
      var avail := Distance(head, tail);
      n := if frames < avail then frames else avail;
      Advance(n);
    }

    /** The tail store that ends read() and discard(). */
    method Advance(n: nat)
      requires Valid() && n <= |Contents()|
      modifies this`tail, this`taken
      ensures Valid() && Same(Contents(), old(Contents())[n..])
    {
      TailMoves(bits, capacity, head, tail, written, taken, n);
      UnreadRest(buf[..], taken, written - taken, n);
      tail := Wrap64(tail + n);
      assert written - taken - n == written - (taken + n);
      taken := taken + n;
    }
  }

  lemma MaskOfIndex(total: nat, bits: nat)
    requires bits < 32
    ensures 0 < Pow2(bits) && And(Wrap64(total), Pow2(bits) - 1) == PlaceOf(total, Pow2(bits))
  {
    PlaceOfIs(total, Pow2(bits));
    PlaceIsRemainder(total, bits, 1, 0);
  }
}
