/** Unsigned machine words as natural numbers: bits, masks and the lowest-set-bit loop. */
module Bits {
  import opened Arithmetic

  const TWO32: nat := 0x1_0000_0000
  const TWO64: nat := 0x1_0000_0000_0000_0000

  /** Unsigned 32-bit and 64-bit arithmetic. */
  function Wrap32(n: int): (w: nat)
    ensures w < 0x1_0000_0000 && (0 <= n ==> w <= n)
  {
    n % 0x1_0000_0000
  }

  function Wrap64(n: int): (w: nat)
    ensures w < 0x1_0000_0000_0000_0000 && (0 <= n ==> w <= n)
  {
    n % 0x1_0000_0000_0000_0000
  }

  lemma Wrap64Sum(n: int, k: int)
    ensures Wrap64(Wrap64(n) + k) == Wrap64(n + k)
  {
  }

  lemma Wrap32Sum(n: int, k: int)
    ensures Wrap32(Wrap32(n) + k) == Wrap32(n + k)
  {
  }

  predicate Bit(x: nat, k: nat) {
    if k == 0 then x % 2 == 1 else Bit(x / 2, k - 1)
  }

  function Pow2(k: nat): (p: nat)
    ensures p > 0
  {
    if k == 0 then 1 else 2 * Pow2(k - 1)
  }

  function And(x: nat, y: nat): nat {
    if x == 0 || y == 0 then 0 else 2 * And(x / 2, y / 2) + (if x % 2 == 1 && y % 2 == 1 then 1 else 0)
  }

  function Or(x: nat, y: nat): nat
    decreases x + y
  {
    if x == 0 then y else if y == 0 then x
    else 2 * Or(x / 2, y / 2) + (if x % 2 == 1 || y % 2 == 1 then 1 else 0)
  }

  /** x & ~y */
  function AndNot(x: nat, y: nat): nat {
    if x == 0 then 0 else 2 * AndNot(x / 2, y / 2) + (if x % 2 == 1 && y % 2 == 0 then 1 else 0)
  }

  /** std::countr_zero of a nonzero word. */
  function LowestBit(x: nat): nat
    requires x > 0
  {
    if x % 2 == 1 then 0 else 1 + LowestBit(x / 2)
  }

  lemma {:induction false} BitZero(k: nat)
    ensures !Bit(0, k)
  {
    if k > 0 { BitZero(k - 1); }
  }

  lemma {:induction false} BitAnd(x: nat, y: nat, k: nat)
    ensures Bit(And(x, y), k) <==> Bit(x, k) && Bit(y, k)
  {
    if x == 0 || y == 0 { BitZero(k); } else if k > 0 { BitAnd(x / 2, y / 2, k - 1); }
  }

  lemma {:induction false} BitOr(x: nat, y: nat, k: nat)
    ensures Bit(Or(x, y), k) <==> Bit(x, k) || Bit(y, k)
    decreases k
  {
    if x == 0 || y == 0 { BitZero(k); } else if k > 0 { BitOr(x / 2, y / 2, k - 1); }
  }

  lemma {:induction false} BitAndNot(x: nat, y: nat, k: nat)
    ensures Bit(AndNot(x, y), k) <==> Bit(x, k) && !Bit(y, k)
  {
    if x == 0 { BitZero(k); } else if k > 0 { BitAndNot(x / 2, y / 2, k - 1); }
  }

  lemma {:induction false} BitPow2(n: nat, k: nat)
    ensures Bit(Pow2(n), k) <==> k == n
  {
    if n == 0 {
      if k > 0 { BitZero(k - 1); }
    } else if k > 0 {
      BitPow2(n - 1, k - 1);
    }
  }

  lemma {:induction false} BitBelow(x: nat, n: nat, k: nat)
    requires x < Pow2(n) && Bit(x, k)
    ensures k < n
    decreases k
  {
    if n == 0 { BitZero(k); } else if k > 0 { BitBelow(x / 2, n - 1, k - 1); }
  }

  /** x & (x - 1) takes exactly the lowest set bit away. */
  lemma {:induction false} ClearLowest(x: nat)
    requires x > 0
    ensures Bit(x, LowestBit(x))
    ensures And(x, x - 1) < x
    ensures forall k: nat :: Bit(And(x, x - 1), k) <==> Bit(x, k) && k != LowestBit(x)
  {
    if x % 2 == 1 {
      AndSelf(x / 2);
      assert And(x, x - 1) == x - 1;
      forall k: nat ensures Bit(x - 1, k) <==> Bit(x, k) && k != 0 {
        if k > 0 { assert (x - 1) / 2 == x / 2; }
      }
    } else {
      ClearLowest(x / 2);
      assert (x - 1) / 2 == x / 2 - 1;
      assert And(x, x - 1) == 2 * And(x / 2, x / 2 - 1);
      forall k: nat ensures Bit(And(x, x - 1), k) <==> Bit(x, k) && k != LowestBit(x) {
        TwiceBit(And(x / 2, x / 2 - 1), k);
        TwiceBit(x / 2, k);
      }
    }
  }

  lemma TwiceBit(y: nat, k: nat)
    ensures Bit(2 * y, k) <==> k > 0 && Bit(y, k - 1)
  {
    assert 2 * y / 2 == y;
  }

  lemma {:induction false} AndSelf(x: nat)
    ensures And(x, x) == x
  {
    if x > 0 { AndSelf(x / 2); }
  }

  /** A word below 2^n stays below it under |. */
  lemma {:induction false} OrBelow(x: nat, y: nat, n: nat)
    requires x < Pow2(n) && y < Pow2(n)
    ensures Or(x, y) < Pow2(n)
    decreases n
  {
    if x != 0 && y != 0 { OrBelow(x / 2, y / 2, n - 1); }
  }

  lemma {:induction false} AndNotBelow(x: nat, y: nat)
    ensures AndNot(x, y) <= x
  {
    if x > 0 { AndNotBelow(x / 2, y / 2); }
  }

  lemma {:induction false} Pow2Less(m: nat, n: nat)
    requires m < n
    ensures Pow2(m) < Pow2(n)
  {
    if m < n - 1 { Pow2Less(m, n - 1); }
  }

  /** x & (2^n - 1) is x mod 2^n: how a power-of-two ring finds a frame's place. */
  lemma {:induction false} MaskIsRemainder(x: nat, n: nat)
    ensures And(x, Pow2(n) - 1) == x % Pow2(n)
    decreases n
  {
    if n == 0 {
      assert x % 1 == 0;
    } else if x == 0 {
      assert 0 % Pow2(n) == 0;
    } else {
      var h := Pow2(n - 1);
      MaskIsRemainder(x / 2, n - 1);
      assert Pow2(n) - 1 == 2 * h - 1 && (2 * h - 1) / 2 == h - 1 && (2 * h - 1) % 2 == 1;
      HalfRemainder(x, h);
      if h == 1 { assert And(x / 2, 0) == 0; }
    }
  }

  lemma HalfRemainder(x: nat, h: nat)
    requires h > 0
    ensures x % (2 * h) == 2 * ((x / 2) % h) + x % 2
  {
    var q, r := (x / 2) / h, (x / 2) % h;
    assert x / 2 == q * h + r;
    assert x == 2 * (x / 2) + x % 2;
    var rest := 2 * r + x % 2;
    assert x == q * (2 * h) + rest && 0 <= rest < 2 * h;
    RemainderUnique(x, 2 * h, q, rest);
  }

  lemma {:induction false} Pow2Sum(m: nat, n: nat)
    ensures Pow2(m + n) == Pow2(m) * Pow2(n)
  {
    if m > 0 {
      Pow2Sum(m - 1, n);
      assert Pow2(m + n) == 2 * (Pow2(m - 1) * Pow2(n)) == (2 * Pow2(m - 1)) * Pow2(n);
    }
  }

  lemma Square(n: nat, p: nat)
    requires Pow2(n) == p
    ensures Pow2(n + n) == p * p
  {
    Pow2Sum(n, n);
  }

  /** The two word sizes of the source. */
  lemma WordSizes()
    ensures Pow2(32) == TWO32 && Pow2(64) == TWO64
  {
    assert Pow2(1) == 2;
    Square(1, 2);
    Square(2, 4);
    Square(4, 16);
    Square(8, 256);
    Square(16, 65536);
    Square(32, TWO32);
  }
}
