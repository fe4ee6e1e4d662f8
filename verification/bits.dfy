/** Python's bitwise `|` on non-negative integers, and the facts about it
    that the register encodings rely on. */
module Bits {

  function Pow2(n: nat): (p: nat)
    ensures p >= 1
  {
    if n == 0 then 1 else 2 * Pow2(n - 1)
  }

  /** Bit `k` of `a` (bit 0 is the least significant). */
  predicate Bit(a: nat, k: nat)
  {
    if k == 0 then a % 2 == 1 else Bit(a / 2, k - 1)
  }

  /** `a | b` for non-negative integers, one binary digit at a time. */
  function BitOr(a: nat, b: nat): (r: nat)
    ensures a <= r && b <= r
    ensures r <= a + b
    decreases a + b
  {
    if a == 0 then b
    else if b == 0 then a
    else 2 * BitOr(a / 2, b / 2) + (if a % 2 == 1 || b % 2 == 1 then 1 else 0)
  }

  lemma {:induction false} MulAtLeast(t: nat, d: nat)
    requires t >= 1
    ensures t * d >= d
    decreases t
  {
    if t > 1 {
      MulAtLeast(t - 1, d);
      assert t * d == (t - 1) * d + d;
    }
  }

  /** Euclidean division is determined by any quotient/remainder pair. */
  lemma DivUnique(a: int, d: int, q: int, r: int)
    requires d > 0 && a == q * d + r && 0 <= r < d
    ensures a / d == q && a % d == r
  {
    var q' := a / d;
    var r' := a % d;
    assert a == q' * d + r';
    if q' < q {
      var t := q - q';
      MulAtLeast(t, d);
    } else if q' > q {
      var t := q' - q;
      MulAtLeast(t, d);
    }
  }

  /** Bit `k` of `a | b` is set exactly when bit `k` of `a` or of `b` is. */
  lemma {:induction false} BitOrBit(a: nat, b: nat, k: nat)
    ensures Bit(BitOr(a, b), k) <==> Bit(a, k) || Bit(b, k)
    decreases a + b
  {
    if a == 0 || b == 0 {
      ZeroHasNoBits(k);
    } else {
      var c := BitOr(a / 2, b / 2);
      var low := if a % 2 == 1 || b % 2 == 1 then 1 else 0;
      assert (2 * c + low) / 2 == c && (2 * c + low) % 2 == low;
      if k > 0 {
        BitOrBit(a / 2, b / 2, k - 1);
      }
    }
  }

  lemma {:induction false} ZeroHasNoBits(k: nat)
    ensures !Bit(0, k)
  {
    if k > 0 {
      ZeroHasNoBits(k - 1);
    }
  }

  /** A value below `2^n` or'ed with another value below `2^n` stays below `2^n`;
      with n = 8 this is "the result still fits in a byte". */
  lemma {:induction false} BitOrBelow(a: nat, b: nat, n: nat)
    requires a < Pow2(n) && b < Pow2(n)
    ensures BitOr(a, b) < Pow2(n)
    decreases n
  {
    if a != 0 && b != 0 {
      assert n > 0;
      BitOrBelow(a / 2, b / 2, n - 1);
    }
  }

  /** Or'ing `b < 2^n` into a multiple of `2^n` is plain addition: no bit is shared. */
  lemma {:induction false} BitOrDisjoint(q: nat, b: nat, n: nat)
    requires b < Pow2(n)
    ensures BitOr(q * Pow2(n), b) == q * Pow2(n) + b
    decreases n
  {
    if n == 0 {
      assert b == 0;
    } else if q != 0 && b != 0 {
      var p := Pow2(n - 1);
      assert q * Pow2(n) == 2 * (q * p);
      BitOrDisjoint(q, b / 2, n - 1);
    }
  }
}
