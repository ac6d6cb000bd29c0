/** Circular buffers: frame number j lives at place j mod capacity. */
module Circular {
  import opened Arithmetic

  /** j mod cap, by subtraction. */
  function PlaceOf(j: nat, cap: nat): (p: nat)
    requires cap > 0
    ensures p < cap
  {
    if j < cap then j else PlaceOf(j - cap, cap)
  }

  lemma {:induction false} PlaceOfIs(j: nat, cap: nat)
    requires cap > 0
    ensures PlaceOf(j, cap) == j % cap
  {
    if j < cap {
      RemainderUnique(j, cap, 0, j);
    } else {
      PlaceOfIs(j - cap, cap);
      DivMod(j - cap, cap);
      MulSplit((j - cap) / cap, 1, cap);
      RemainderUnique(j, cap, (j - cap) / cap + 1, (j - cap) % cap);
    }
  }

  /** The place k frames after a place. */
  lemma PlaceOfAdd(j: nat, k: nat, cap: nat)
    requires k < cap
    ensures PlaceOf(j + k, cap) == if PlaceOf(j, cap) + k < cap then PlaceOf(j, cap) + k else PlaceOf(j, cap) + k - cap
  {
    PlaceOfIs(j, cap);
    PlaceOfIs(j + k, cap);
    RemainderAdd(j, k, cap);
  }

  /** A place may be taken for the frame number itself. */
  lemma PlaceOfPlace(j: nat, k: nat, cap: nat)
    requires cap > 0
    ensures PlaceOf(PlaceOf(j, cap) + k, cap) == PlaceOf(j + k, cap)
  {
    PlaceOfIs(j, cap);
    PlaceOfIs(j % cap + k, cap);
    PlaceOfIs(j + k, cap);
    RemainderSum(j, k, cap);
  }

  /** Two frame numbers less than a capacity apart have different places. */
  lemma PlacesDiffer(i: nat, j: nat, cap: nat)
    requires i < j < i + cap
    ensures PlaceOf(i, cap) != PlaceOf(j, cap)
  {
    PlaceOfAdd(i, j - i, cap);
  }

  /** `count` frames of a circular buffer, from frame number `from` on. */
  function Unread<T>(b: seq<T>, from: nat, count: nat): (c: seq<T>)
    requires |b| > 0
    ensures |c| == count
  {
    if count == 0 then [] else Unread(b, from, count - 1) + [b[PlaceOf(from + count - 1, |b|)]]
  }

  lemma {:induction false} UnreadAt<T>(b: seq<T>, from: nat, count: nat, k: nat)
    requires k < count && |b| > 0
    ensures Unread(b, from, count)[k] == b[PlaceOf(from + k, |b|)]
    decreases count
  {
    if k < count - 1 { UnreadAt(b, from, count - 1, k); }
  }

  lemma UnreadRest<T>(b: seq<T>, from: nat, count: nat, n: nat)
    requires |b| > 0 && n <= count
    ensures Unread(b, from + n, count - n) == Unread(b, from, count)[n..]
  {
    forall k | 0 <= k < count - n ensures Unread(b, from + n, count - n)[k] == Unread(b, from, count)[n..][k] {
      UnreadAt(b, from + n, count - n, k);
      UnreadAt(b, from, count, n + k);
      assert from + n + k == from + (n + k);
    }
  }

  lemma UnreadStart<T>(b: seq<T>, from: nat, n: nat, count: nat)
    requires |b| > 0 && n <= count
    ensures Unread(b, from, n) == Unread(b, from, count)[..n]
  {
    forall k | 0 <= k < n ensures Unread(b, from, n)[k] == Unread(b, from, count)[k] {
      UnreadAt(b, from, n, k);
      UnreadAt(b, from, count, k);
    }
  }

  /** n frames copied out from place `at` on, past the end from the start. */
  ghost predicate CopiedFrom<T>(b: seq<T>, at: nat, n: nat, dst: seq<T>) {
    && at < |b| && n == |dst| <= |b|
    && forall k :: 0 <= k < n ==> dst[k] == b[if at + k < |b| then at + k else at + k - |b|]
  }

  /** What copyOut returns is what was unread. */
  lemma CopiedOut<T>(b: seq<T>, from: nat, n: nat, dst: seq<T>)
    requires |b| > 0 && CopiedFrom(b, PlaceOf(from, |b|), n, dst)
    ensures dst == Unread(b, from, n)
  {
    forall k | 0 <= k < n ensures dst[k] == Unread(b, from, n)[k] {
      UnreadAt(b, from, n, k);
      PlaceOfAdd(from, k, |b|);
    }
  }

  /** `src` copied into a buffer from place `at` on, the part past the end to the start; the rest is as it was. */
  ghost predicate CopiedAt<T>(b: seq<T>, b': seq<T>, at: nat, src: seq<T>) {
    && at < |b| == |b'| && |src| <= |b|
    && (forall k :: 0 <= k < |src| ==> b'[if at + k < |b| then at + k else at + k - |b|] == src[k])
    && (forall p :: 0 <= p < |b| && !(at <= p < at + |src|) && !(p + |b| < at + |src|) ==> b'[p] == b[p])
  }

  /** What copyIn writes is appended to what was unread, as long as it fits. */
  lemma CopiedIn<T>(b: seq<T>, b': seq<T>, from: nat, count: nat, src: seq<T>)
    requires |b| > 0 && count + |src| <= |b| && CopiedAt(b, b', PlaceOf(from + count, |b|), src)
    ensures Unread(b', from, count + |src|) == Unread(b, from, count) + src
  {
    CopyKeeps(b, b', from, count, src);
    CopyAdds(b, b', from + count, src);
    UnreadStart(b', from, count, count + |src|);
    UnreadRest(b', from, count + |src|, count);
  }

  lemma CopyKeeps<T>(b: seq<T>, b': seq<T>, from: nat, count: nat, src: seq<T>)
    requires |b| > 0 && count + |src| <= |b| && CopiedAt(b, b', PlaceOf(from + count, |b|), src)
    ensures Unread(b', from, count) == Unread(b, from, count)
  {
    forall k | 0 <= k < count ensures Unread(b', from, count)[k] == Unread(b, from, count)[k] {
      UnreadAt(b', from, count, k);
      UnreadAt(b, from, count, k);
      PlaceGap(from + k, from + count, |src|, |b|);
    }
  }

  lemma CopyAdds<T>(b: seq<T>, b': seq<T>, from: nat, src: seq<T>)
    requires |b| > 0 && CopiedAt(b, b', PlaceOf(from, |b|), src)
    ensures Unread(b', from, |src|) == src
  {
    forall k | 0 <= k < |src| ensures Unread(b', from, |src|)[k] == src[k] {
      UnreadAt(b', from, |src|, k);
      PlaceOfAdd(from, k, |b|);
    }
  }

  /** A frame less than a capacity behind the n frames from `start` on is not overwritten by them. */
  lemma PlaceGap(j: nat, start: nat, n: nat, cap: nat)
    requires cap > 0 && n <= cap && j < start && start + n <= j + cap
    ensures var at, p := PlaceOf(start, cap), PlaceOf(j, cap); !(at <= p < at + n) && !(p + cap < at + n)
  {
    var d := start - j;
    PlaceOfAdd(j, if d < cap then d else 0, cap);
  }

  /** One frame written at the end. */
  lemma PutOne<T>(b: seq<T>, from: nat, count: nat, x: T)
    requires count < |b|
    ensures Unread(b[PlaceOf(from + count, |b|) := x], from, count + 1) == Unread(b, from, count) + [x]
  {
    var b' := b[PlaceOf(from + count, |b|) := x];
    forall k | 0 <= k < count ensures Unread(b', from, count)[k] == Unread(b, from, count)[k] {
      UnreadAt(b, from, count, k);
      UnreadAt(b', from, count, k);
      PlacesDiffer(from + k, from + count, |b|);
    }
  }

  /** Moving the first place on by n frames drops them. */
  lemma UnreadAdvance<T>(b: seq<T>, from: nat, count: nat, n: nat)
    requires |b| > 0 && n <= count
    ensures Unread(b, PlaceOf(from + n, |b|), count - n) == Unread(b, from, count)[n..]
  {
    UnreadRest(b, from, count, n);
    SamePlaces(b, PlaceOf(from + n, |b|), from + n, count - n);
  }

  lemma SamePlaces<T>(b: seq<T>, from: nat, from': nat, count: nat)
    requires |b| > 0 && from == PlaceOf(from', |b|)
    ensures Unread(b, from, count) == Unread(b, from', count)
  {
    forall k | 0 <= k < count ensures Unread(b, from, count)[k] == Unread(b, from', count)[k] {
      UnreadAt(b, from, count, k);
      UnreadAt(b, from', count, k);
      PlaceOfPlace(from', k, |b|);
    }
  }
}
