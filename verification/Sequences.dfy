/** Facts about sequences. */
module Sequences {
  /** Equal. Membership makes the solver treat a sequence as a whole, where == has it compare elements. */
  ghost predicate Same<T>(a: T, b: T) {
    a in {b}
  }

  lemma Regroup<T>(a: seq<T>, b: seq<T>, c: seq<T>)
    ensures Same(a + b + c, a + (b + c))
  {
    assert a + b + c == a + (b + c);
  }

  lemma TakeSlice<T>(s: seq<T>, k: nat, i: nat, j: nat)
    requires i <= j <= k <= |s|
    ensures Same(s[..k][i..j], s[i..j])
  {
    assert s[..k][i..j] == s[i..j];
  }

  /** a + b. That an empty a leaves b itself keeps the solver from unfolding it without end. */
  function Glue<T>(a: seq<T>, b: seq<T>): seq<T> {
    if |a| == 0 then b else a + b
  }

  lemma GlueIs<T>(a: seq<T>, b: seq<T>)
    ensures Same(Glue(a, b), a + b)
  {
    if |a| == 0 { assert a + b == b; }
  }

  /** The parts one after the other. */
  function Joined<T>(parts: seq<seq<T>>): seq<T>
    decreases |parts|
  {
    if parts == [] then [] else parts[0] + Joined(parts[1..])
  }
}
