/** One Bridge's outgoing half of a Worker tick: the Master OUT slots that pick a Bridge channel are summed into
    ring slot t mod 6, and a channel the slot carried when it was last used, and carries no more, is cleared. */
module BridgePublish {
  import opened Arithmetic
  import opened Bits
  import opened BridgeLayout

  const SLOT_BRIDGE1: int := 4
  const SLOT_BRIDGE4: int := 7

  /** A Master OUT slot: its type, its channel in the Bridge app, and its block. */
  datatype OutSlot = OutSlot(kind: int, srcChannel: int, audio: seq<real>)

  /** The channel a slot picks in Bridge `bridge` (0-based), or -1. */
  function ChannelOf(slot: OutSlot, bridge: int): (ch: int)
    ensures -1 <= ch < CHANNELS
  {
    if slot.kind != SLOT_BRIDGE1 + bridge then -1
    else if SLOT_BRIDGE1 <= slot.kind <= SLOT_BRIDGE4 && 0 <= slot.srcChannel < CHANNELS then slot.srcChannel
    else -1
  }

  /** How many frames of a block the Worker moves: the ASIO buffer as a 32-bit int, at most 1024; 128 if not positive. */
  function BlockFrames(asioBuffer: nat): (n: nat)
    requires asioBuffer < TWO32
    ensures 0 < n <= FRAMES
  {
    var signed := if asioBuffer < TWO32 / 2 then asioBuffer else asioBuffer - TWO32;
    if signed > FRAMES then FRAMES else if signed <= 0 then 128 else signed
  }

  /** Some of the first n slots picks channel ch. */
  predicate Picked(outs: seq<OutSlot>, bridge: int, n: nat, ch: int)
    requires n <= |outs|
  {
    exists i :: 0 <= i < n && ChannelOf(outs[i], bridge) == ch
  }

  /** The sum of frame f over the first n slots that pick channel ch. */
  function Sum(outs: seq<OutSlot>, bridge: int, n: nat, ch: int, f: nat): real
    requires n <= |outs| && forall i :: 0 <= i < |outs| ==> f < |outs[i].audio|
  {
    if n == 0 then 0.0
    else Sum(outs, bridge, n - 1, ch, f) + (if ChannelOf(outs[n - 1], bridge) == ch then outs[n - 1].audio[f] else 0.0)
  }

  lemma {:induction false} SumOfNone(outs: seq<OutSlot>, bridge: int, n: nat, ch: int, f: nat)
    requires n <= |outs| && forall i :: 0 <= i < |outs| ==> f < |outs[i].audio|
    requires !Picked(outs, bridge, n, ch)
    ensures Sum(outs, bridge, n, ch, f) == 0.0
  {
    if n > 0 {
      assert ChannelOf(outs[n - 1], bridge) != ch;
      assert !Picked(outs, bridge, n - 1, ch);
      SumOfNone(outs, bridge, n - 1, ch, f);
    }
  }

  /** Everything but channel ch of ring slot s, and that from frame `from` on, is as it was. */
  twostate predicate KeptOutside(r: array3<real>, s: nat, ch: nat, from: nat)
    reads r
  {
    forall s', ch', f :: 0 <= s' < r.Length0 && 0 <= ch' < r.Length1 && 0 <= f < r.Length2 ==>
      (s' != s || ch' != ch || f >= from) ==> r[s', ch', f] == old(r[s', ch', f])
  }

  /** The Worker's side of one Bridge: the ring its apps read, and per ring slot the channels an OUT slot fed when the
      ring slot was last used (bit = channel). */
  class BridgeOut {
    var ring: array3<real>
    var fed: array<nat>

    /** A channel the slot's word does not name is silent in it, over the whole 1024 frames. */
    ghost predicate Valid()
      reads this, ring, fed
    {
      && ring.Length0 == RING && ring.Length1 == CHANNELS && ring.Length2 == FRAMES && fed.Length == RING
      && (forall s :: 0 <= s < RING ==> fed[s] < TWO64)
      && (forall s, ch, f :: 0 <= s < RING && 0 <= ch < CHANNELS && 0 <= f < FRAMES && !Bit(fed[s], ch) ==>
            ring[s, ch, f] == 0.0)
    }

    /** A zeroed region and a new Worker. */
    constructor ()
      ensures Valid() && fresh(ring) && fresh(fed)
      ensures forall s, ch, f :: 0 <= s < RING && 0 <= ch < CHANNELS && 0 <= f < FRAMES ==> ring[s, ch, f] == 0.0
    {
      ring := new real[RING, CHANNELS, FRAMES]((s, ch, f) => 0.0);
      fed := new nat[RING](s => 0);
      new;
      forall s, ch: nat | 0 <= s < RING ensures !Bit(fed[s], ch) { BitZero(ch); }
    }

    /** memset or memcpy of one channel's first frames. */
    method Store(s: nat, ch: nat, audio: seq<real>, frames: nat)
      requires s < ring.Length0 && ch < ring.Length1 && frames <= ring.Length2 && frames <= |audio|
      modifies ring
      ensures forall f :: 0 <= f < frames ==> ring[s, ch, f] == audio[f]
      ensures KeptOutside(ring, s, ch, frames)
    {
      forall f | 0 <= f < frames {
        ring[s, ch, f] := audio[f];
      }
    }

    /** Adds a slot's block to a channel the tick has already fed. */
    method AddTo(s: nat, ch: nat, audio: seq<real>, frames: nat)
      requires s < ring.Length0 && ch < ring.Length1 && frames <= ring.Length2 && frames <= |audio|
      modifies ring
      ensures forall f :: 0 <= f < frames ==> ring[s, ch, f] == old(ring[s, ch, f]) + audio[f]
      ensures KeptOutside(ring, s, ch, frames)
    {
      for f := 0 to frames
        invariant forall g :: 0 <= g < f ==> ring[s, ch, g] == old(ring[s, ch, g]) + audio[g]
        invariant KeptOutside(ring, s, ch, f)
      {
        ring[s, ch, f] := ring[s, ch, f] + audio[f];
      }
    }

    /** The OUT slots of this tick into ring slot s; `now` names the channels they fed. */
    method Feed(s: nat, bridge: int, outs: seq<OutSlot>, frames: nat) returns (now: nat)
      requires Valid() && s < RING && frames <= FRAMES
      requires forall i :: 0 <= i < |outs| ==> frames <= |outs[i].audio|
      modifies ring
      ensures ring == old(ring) && now < TWO64
      ensures forall ch: nat :: ch < CHANNELS ==> (Bit(now, ch) <==> Picked(outs, bridge, |outs|, ch))
      ensures forall ch: nat, f :: ch < CHANNELS && 0 <= f < frames && Bit(now, ch) ==>
                ring[s, ch, f] == Sum(outs, bridge, |outs|, ch, f)
      ensures forall ch: nat, f :: ch < CHANNELS && 0 <= f < FRAMES && !Bit(now, ch) ==> ring[s, ch, f] == old(ring[s, ch, f])
      ensures forall s', ch, f :: 0 <= s' < RING && s' != s && 0 <= ch < CHANNELS && 0 <= f < FRAMES ==>
                ring[s', ch, f] == old(ring[s', ch, f])
    {
      now := 0;
      forall ch: nat ensures !Bit(0, ch) { BitZero(ch); }
      WordSizes();
      for i := 0 to |outs|
        invariant now < TWO64
        invariant forall ch: nat :: ch < CHANNELS ==> (Bit(now, ch) <==> Picked(outs, bridge, i, ch))
        invariant forall ch: nat, f :: ch < CHANNELS && 0 <= f < frames && Bit(now, ch) ==>
                    ring[s, ch, f] == Sum(outs, bridge, i, ch, f)
        invariant forall ch: nat, f :: ch < CHANNELS && 0 <= f < FRAMES && !Bit(now, ch) ==>
                    ring[s, ch, f] == old(ring[s, ch, f])
        invariant forall s', ch, f :: 0 <= s' < RING && s' != s && 0 <= ch < CHANNELS && 0 <= f < FRAMES ==>
                    ring[s', ch, f] == old(ring[s', ch, f])
      {
        var ch := ChannelOf(outs[i], bridge);
        forall c: nat | c < CHANNELS
          ensures Picked(outs, bridge, i + 1, c) <==> Picked(outs, bridge, i, c) || c == ch
        {
          if c == ch { assert ChannelOf(outs[i], bridge) == c; }
        }
        if ch >= 0 {
          if Bit(now, ch) {
            AddTo(s, ch, outs[i].audio, frames);
          } else {
            Store(s, ch, outs[i].audio, frames);
            forall f | 0 <= f < frames ensures Sum(outs, bridge, i, ch, f) == 0.0 { SumOfNone(outs, bridge, i, ch, f); }
            var next := Or(now, Pow2(ch));
            forall c: nat ensures Bit(next, c) <==> Bit(now, c) || c == ch {
              BitOr(now, Pow2(ch), c);
              BitPow2(ch, c);
            }
            Pow2Less(ch, CHANNELS);
            OrBelow(now, Pow2(ch), CHANNELS);
            now := next;
          }
        }
      }
    }

    /** Clears every channel of ring slot s named in `stale`, lowest bit first. */
    method ClearStale(s: nat, stale: nat)
      requires ring.Length0 == RING && ring.Length1 == CHANNELS && ring.Length2 == FRAMES && s < RING && stale < TWO64
      modifies ring
      ensures forall ch: nat, f :: ch < CHANNELS && 0 <= f < FRAMES ==>
                ring[s, ch, f] == if Bit(stale, ch) then 0.0 else old(ring[s, ch, f])
      ensures forall s', ch, f :: 0 <= s' < RING && s' != s && 0 <= ch < CHANNELS && 0 <= f < FRAMES ==>
                ring[s', ch, f] == old(ring[s', ch, f])
    {
      WordSizes();
      var left: nat := stale;
      while left != 0
        invariant left <= stale
        invariant forall ch: nat :: Bit(left, ch) ==> Bit(stale, ch)
        invariant forall ch: nat, f :: ch < CHANNELS && 0 <= f < FRAMES ==>
                    ring[s, ch, f] == if Bit(stale, ch) && !Bit(left, ch) then 0.0 else old(ring[s, ch, f])
        invariant forall s', ch, f :: 0 <= s' < RING && s' != s && 0 <= ch < CHANNELS && 0 <= f < FRAMES ==>
                    ring[s', ch, f] == old(ring[s', ch, f])
        decreases left
      {
        var ch := LowestBit(left);
        ClearLowest(left);
        BitBelow(left, CHANNELS, ch);
        Store(s, ch, seq(FRAMES, _ => 0.0), FRAMES);
        left := And(left, left - 1);
      }
      forall ch: nat ensures !Bit(0, ch) { BitZero(ch); }
    }

    /** The outgoing half of tick t: whatever the OUT slots were in earlier ticks, every channel of the block now holds
        the sum of the slots that pick it, and is silent over all 1024 frames if none does. */
    method Publish(t: nat, bridge: int, outs: seq<OutSlot>, asioBuffer: nat)
      requires Valid() && asioBuffer < TWO32
      requires forall i :: 0 <= i < |outs| ==> FRAMES <= |outs[i].audio|
      modifies ring, fed
      ensures Valid() && ring == old(ring) && fed == old(fed)
      ensures forall ch, f :: 0 <= ch < CHANNELS && 0 <= f < BlockFrames(asioBuffer) ==>
                ring[t % RING, ch, f] == Sum(outs, bridge, |outs|, ch, f)
      ensures forall ch, f :: 0 <= ch < CHANNELS && 0 <= f < FRAMES && !Picked(outs, bridge, |outs|, ch) ==>
                ring[t % RING, ch, f] == 0.0
      ensures forall s, ch, f :: 0 <= s < RING && s != t % RING && 0 <= ch < CHANNELS && 0 <= f < FRAMES ==>
                ring[s, ch, f] == old(ring[s, ch, f])
    {
      var s := t % RING;
      var frames := BlockFrames(asioBuffer);
      var now := Feed(s, bridge, outs, frames);
      var stale := AndNot(fed[s], now);
      forall ch: nat ensures Bit(stale, ch) <==> Bit(fed[s], ch) && !Bit(now, ch) { BitAndNot(fed[s], now, ch); }
      AndNotBelow(fed[s], now);
      ClearStale(s, stale);
      fed[s] := now;
      forall ch, f | 0 <= ch < CHANNELS && 0 <= f < frames
        ensures ring[s, ch, f] == Sum(outs, bridge, |outs|, ch, f)
      {
        if !Picked(outs, bridge, |outs|, ch) { SumOfNone(outs, bridge, |outs|, ch, f); }
      }
    }
  }

  /** The OUT slots and the ASIO buffer as one tick found them. */
  datatype Tick = Tick(outs: seq<OutSlot>, asioBuffer: nat)

  ghost predicate TickOk(tick: Tick) {
    tick.asioBuffer < TWO32 && forall i :: 0 <= i < |tick.outs| ==> FRAMES <= |tick.outs[i].audio|
  }

  /** Ring slot j mod 6 of a Worker holds the block of tick j. */
  ghost predicate HoldsBlock(b: BridgeOut, bridge: int, tick: Tick, j: nat)
    reads b, b.ring
    requires TickOk(tick) && b.ring.Length0 == RING && b.ring.Length1 == CHANNELS && b.ring.Length2 == FRAMES
  {
    && (forall ch, f :: 0 <= ch < CHANNELS && 0 <= f < BlockFrames(tick.asioBuffer) ==>
          b.ring[j % RING, ch, f] == Sum(tick.outs, bridge, |tick.outs|, ch, f))
    && (forall ch, f :: 0 <= ch < CHANNELS && 0 <= f < FRAMES && !Picked(tick.outs, bridge, |tick.outs|, ch) ==>
          b.ring[j % RING, ch, f] == 0.0)
  }

  /** From a zeroed region, after any history of ticks and table edits, the ring holds the blocks of the last six
      ticks, each the sum of its own tick's OUT slots. */
  method Replay(bridge: int, ticks: seq<Tick>) returns (b: BridgeOut)
    requires forall j :: 0 <= j < |ticks| ==> TickOk(ticks[j])
    ensures fresh(b) && b.Valid()
    ensures forall j :: 0 <= j < |ticks| && |ticks| - RING <= j ==> HoldsBlock(b, bridge, ticks[j], j)
  {
    b := new BridgeOut();
    for t := 0 to |ticks|
      invariant fresh(b) && fresh(b.ring) && fresh(b.fed) && b.Valid()
      invariant forall j :: 0 <= j < t && t - RING <= j ==> HoldsBlock(b, bridge, ticks[j], j)
    {
      label before:
      b.Publish(t, bridge, ticks[t].outs, ticks[t].asioBuffer);
      forall j | 0 <= j < t && t + 1 - RING <= j ensures HoldsBlock(b, bridge, ticks[j], j) {
        assert old@before(HoldsBlock(b, bridge, ticks[j], j));
        assert j % RING != t % RING;
      }
    }
  }
}
