/**
 * Bitwise OR on non-negative integers, as PHP's `|` combines the
 * notification option flags of a custom notification.
 */
module Bits {

  /** `a | b` on non-negative integers, one binary digit at a time. */
  function BitOr(a: nat, b: nat): (r: nat)
    ensures a <= r && b <= r
    ensures r <= a + b
    decreases a + b
  {
    if a == 0 && b == 0 then 0
    else 2 * BitOr(a / 2, b / 2) + (if a % 2 == 1 || b % 2 == 1 then 1 else 0)
  }

  /** Binary digit `k` (weight 2^k) of `n` is a one. */
  predicate Bit(n: nat, k: nat)
    decreases k
  {
    if k == 0 then n % 2 == 1 else Bit(n / 2, k - 1)
  }

  function Pow2(k: nat): (p: nat)
    ensures p >= 1
  {
    if k == 0 then 1 else 2 * Pow2(k - 1)
  }

  /** Shifting `2 * x + d` right by one digit gives `x`, and its lowest digit is `d`. */
  lemma Halve(x: nat, d: nat)
    requires d < 2
    ensures (2 * x + d) / 2 == x && (2 * x + d) % 2 == d
  {
  }

  /** `a | b` has exactly the one-digits of `a` together with those of `b`. */
  lemma {:induction false} BitOrBit(a: nat, b: nat, k: nat)
    ensures Bit(BitOr(a, b), k) <==> Bit(a, k) || Bit(b, k)
    decreases k
  {
    if !(a == 0 && b == 0) {
      var low := if a % 2 == 1 || b % 2 == 1 then 1 else 0;
      var high := BitOr(a / 2, b / 2);
      assert BitOr(a, b) == 2 * high + low;
      Halve(high, low);
      if k > 0 {
        BitOrBit(a / 2, b / 2, k - 1);
      }
    }
  }

  /** OR-ing values below 2^k stays below 2^k. */
  lemma {:induction false} BitOrBelow(a: nat, b: nat, k: nat)
    requires a < Pow2(k) && b < Pow2(k)
    ensures BitOr(a, b) < Pow2(k)
    decreases k
  {
    if k > 0 && !(a == 0 && b == 0) {
      BitOrBelow(a / 2, b / 2, k - 1);
    }
  }

  /** OR-ing 0 changes nothing. */
  lemma {:induction false} BitOrZero(a: nat)
    ensures BitOr(a, 0) == a
    decreases a
  {
    if a != 0 {
      BitOrZero(a / 2);
    }
  }

  /** The order of two operands does not matter. */
  lemma {:induction false} BitOrCommutes(a: nat, b: nat)
    ensures BitOr(a, b) == BitOr(b, a)
    decreases a + b
  {
    if !(a == 0 && b == 0) {
      BitOrCommutes(a / 2, b / 2);
    }
  }

  /** OR-ing a value with itself changes nothing. */
  lemma {:induction false} BitOrIdempotent(a: nat)
    ensures BitOr(a, a) == a
    decreases a
  {
    if a != 0 {
      BitOrIdempotent(a / 2);
    }
  }

  /** `first | rest[0] | rest[1] | ...`, in argument order. */
  function OrAll(first: nat, rest: seq<nat>): (r: nat)
    ensures first <= r
    decreases |rest|
  {
    if |rest| == 0 then first else BitOr(OrAll(first, rest[..|rest| - 1]), rest[|rest| - 1])
  }

  /** The combined value has a one-digit exactly where some operand has one. */
  lemma {:induction false} OrAllBit(first: nat, rest: seq<nat>, k: nat)
    ensures Bit(OrAll(first, rest), k) <==> Bit(first, k) || exists i :: 0 <= i < |rest| && Bit(rest[i], k)
    decreases |rest|
  {
    if |rest| > 0 {
      var init := rest[..|rest| - 1];
      OrAllBit(first, init, k);
      BitOrBit(OrAll(first, init), rest[|rest| - 1], k);
      if exists i :: 0 <= i < |rest| && Bit(rest[i], k) {
        var i :| 0 <= i < |rest| && Bit(rest[i], k);
        if i < |rest| - 1 {
          assert init[i] == rest[i];
        }
      }
      if exists i :: 0 <= i < |init| && Bit(init[i], k) {
        var i :| 0 <= i < |init| && Bit(init[i], k);
        assert rest[i] == init[i];
      }
    }
  }

  /** Combining operands that all lie below 2^k stays below 2^k. */
  lemma {:induction false} OrAllBelow(first: nat, rest: seq<nat>, k: nat)
    requires first < Pow2(k)
    requires forall i :: 0 <= i < |rest| ==> rest[i] < Pow2(k)
    ensures OrAll(first, rest) < Pow2(k)
    decreases |rest|
  {
    if |rest| > 0 {
      OrAllBelow(first, rest[..|rest| - 1], k);
      BitOrBelow(OrAll(first, rest[..|rest| - 1]), rest[|rest| - 1], k);
    }
  }

  /** Two values with the same one-digits are equal. */
  lemma {:induction false} BitExtensionality(x: nat, y: nat)
    requires forall k: nat :: Bit(x, k) <==> Bit(y, k)
    ensures x == y
    decreases x + y
  {
    if x != y {
      assert Bit(x, 0) <==> Bit(y, 0);
      forall k: nat
        ensures Bit(x / 2, k) <==> Bit(y / 2, k)
      {
        assert Bit(x, k + 1) <==> Bit(y, k + 1);
      }
      BitExtensionality(x / 2, y / 2);
    }
  }

  /** No digit of 0 is a one. */
  lemma {:induction false} NoBitOfZero(k: nat)
    ensures !Bit(0, k)
    decreases k
  {
    if k > 0 {
      NoBitOfZero(k - 1);
    }
  }

  /** A digit of the combined value is a one exactly where it is a one in some option, the first included. */
  lemma OrAllBitIn(first: nat, rest: seq<nat>, k: nat)
    ensures Bit(OrAll(first, rest), k) <==> exists v :: v in [first] + rest && Bit(v, k)
  {
    OrAllBit(first, rest, k);
    if exists i :: 0 <= i < |rest| && Bit(rest[i], k) {
      var i :| 0 <= i < |rest| && Bit(rest[i], k);
      assert rest[i] in [first] + rest;
    }
    if exists v :: v in [first] + rest && Bit(v, k) {
      var v :| v in [first] + rest && Bit(v, k);
      if v != first {
        assert v in rest;
        var i :| 0 <= i < |rest| && rest[i] == v;
      }
    }
  }

  /**
   * The combined value depends only on which options occur, the first
   * (the third argument of the call) included: neither their order, nor
   * which of them comes first, nor how often each is given changes it.
   */
  lemma OrAllSameOptions(a: nat, p: seq<nat>, b: nat, q: seq<nat>)
    requires forall v :: v in [a] + p <==> v in [b] + q
    ensures OrAll(a, p) == OrAll(b, q)
  {
    forall k: nat
      ensures Bit(OrAll(a, p), k) <==> Bit(OrAll(b, q), k)
    {
      OrAllBitIn(a, p, k);
      OrAllBitIn(b, q, k);
    }
    BitExtensionality(OrAll(a, p), OrAll(b, q));
  }

  /** Reordering the options, the first included, does not change the combined value. */
  lemma OrAllPermutation(a: nat, p: seq<nat>, b: nat, q: seq<nat>)
    requires multiset([a] + p) == multiset([b] + q)
    ensures OrAll(a, p) == OrAll(b, q)
  {
    forall v
      ensures v in [a] + p <==> v in [b] + q
    {
      assert v in [a] + p <==> v in multiset([a] + p);
      assert v in [b] + q <==> v in multiset([b] + q);
    }
    OrAllSameOptions(a, p, b, q);
  }

  /** Giving any option, the first included, once more does not change the combined value. */
  lemma OrAllRepeat(first: nat, p: seq<nat>, v: nat)
    requires v in [first] + p
    ensures OrAll(first, p + [v]) == OrAll(first, p)
  {
    forall u
      ensures u in [first] + (p + [v]) <==> u in [first] + p
    {
      assert [first] + (p + [v]) == ([first] + p) + [v];
    }
    OrAllSameOptions(first, p + [v], first, p);
  }

  /** A leading 0, the default of the third argument, is neutral: the next option takes its place. */
  lemma OrAllZeroFirst(x: nat, rest: seq<nat>)
    ensures OrAll(0, [x] + rest) == OrAll(x, rest)
  {
    forall k: nat
      ensures Bit(OrAll(0, [x] + rest), k) <==> Bit(OrAll(x, rest), k)
    {
      OrAllBitIn(0, [x] + rest, k);
      OrAllBitIn(x, rest, k);
      NoBitOfZero(k);
      if exists v :: v in [0] + ([x] + rest) && Bit(v, k) {
        var v :| v in [0] + ([x] + rest) && Bit(v, k);
        assert v in [x] + rest;
      }
      if exists v :: v in [x] + rest && Bit(v, k) {
        var v :| v in [x] + rest && Bit(v, k);
        assert v in [0] + ([x] + rest);
      }
    }
    BitExtensionality(OrAll(0, [x] + rest), OrAll(x, rest));
  }
}
