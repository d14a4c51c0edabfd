/**
 * The arithmetic behind atheme_arc4random_uniform
 * (libathemecore/arc4random.c): a 32-bit candidate is accepted when it is at
 * least `min = -bound % bound`, and the result is the candidate modulo
 * `bound`. The accepted range [min, 2^32) is a whole number of runs of
 * `bound` consecutive values, so every residue is hit equally often.
 *
 * uint32_t values are naturals below WORD; the wrap-around of the unsigned
 * negation is written out.
 */
module Sampling {
  import opened Wrappers

  const WORD: nat := 0x1_0000_0000  // 2^32, the number of uint32_t values

  /** Unsigned 32-bit negation: 2^32 - x, wrapped to 0 for x == 0. */
  function NegU32(x: nat): (r: nat)
    requires x < WORD
    ensures r < WORD && (r + x) % WORD == 0
  {
    if x == 0 then 0 else WORD - x
  }

  /** `-bound % bound` in uint32_t arithmetic. */
  function MinAccepted(bound: nat): nat
    requires 0 < bound < WORD
  {
    NegU32(bound) % bound
  }

  /** One round of the rejection loop: a candidate at or above `min` is
      reduced modulo `bound`, a smaller one is rejected. */
  function Accept(candidate: bv32, bound: nat): (r: Option<nat>)
    requires 2 <= bound < WORD
    ensures r.Some? <==> candidate as int >= MinAccepted(bound)
    ensures r.Some? ==> r.value < bound && r.value == candidate as int % bound
  {
    if candidate as int >= MinAccepted(bound) then Some(candidate as int % bound) else None
  }

  /** m * b is at least b for m >= 1, at most -b for m <= -1. */
  lemma MulSign(m: int, b: int)
    requires b > 0
    ensures m >= 1 ==> m * b >= b
    ensures m <= -1 ==> m * b <= -b
  {
    if m >= 1 {
      assert (m - 1) * b >= 0;
    } else if m <= -1 {
      assert (-m - 1) * b >= 0;
    }
  }

  /** Quotient and remainder are the only q, r with a == q * b + r, 0 <= r < b. */
  lemma DivModUnique(a: int, b: int, q: int, r: int)
    requires b > 0 && 0 <= r < b && a == q * b + r
    ensures a / b == q && a % b == r
  {
    var q', r' := a / b, a % b;
    assert a == q' * b + r';
    assert (q - q') * b == r' - r;
    MulSign(q - q', b);
  }

  /** `min` is (2^32 - bound) mod bound, which is 2^32 mod bound, so it is
      below `bound` and the accepted range [min, 2^32) has a length divisible
      by `bound`. */
  lemma MinAcceptedValue(bound: nat)
    requires 2 <= bound < WORD
    ensures MinAccepted(bound) == (WORD - bound) % bound == WORD % bound
    ensures MinAccepted(bound) < bound && (WORD - MinAccepted(bound)) % bound == 0
  {
    var a := WORD - bound;
    DivModUnique(a + bound, bound, a / bound + 1, a % bound);
    DivModUnique(WORD - WORD % bound, bound, WORD / bound, 0);
  }

  /** The number of values v in [a, a + len) with v % b == r. */
  function Hits(a: int, len: nat, b: nat, r: int): (n: nat)
    requires b > 0
    ensures n <= len
    decreases len
  {
    if len == 0 then 0
    else Hits(a, len - 1, b, r) + (if (a + len - 1) % b == r then 1 else 0)
  }

  /** a + k has residue r exactly when k is (r - a) mod b, for 0 <= k < b. */
  lemma ResidueStep(a: int, k: nat, b: nat, r: nat)
    requires 0 < b && r < b && k < b
    ensures (a + k) % b == r <==> (r - a) % b == k
  {
    var d, q := (r - a) % b, (r - a) / b;
    assert r - a == q * b + d;
    if (a + k) % b == r {
      var p := (a + k) / b;
      assert a + k == p * b + r;
      assert r - a == (-p) * b + k;
      DivModUnique(r - a, b, -p, k);
    }
    if d == k {
      assert a + k == (-q) * b + r;
      DivModUnique(a + k, b, -q, r);
    }
  }

  /** A stretch of at most `b` consecutive values hits residue `r` once if
      the first value with that residue falls inside it, else not at all. */
  lemma {:induction false} HitsShort(a: int, len: nat, b: nat, r: nat)
    requires 0 < b && r < b && len <= b
    ensures Hits(a, len, b, r) == if (r - a) % b < len then 1 else 0
    decreases len
  {
    if len > 0 {
      HitsShort(a, len - 1, b, r);
      ResidueStep(a, len - 1, b, r);
    }
  }

  /** Counting over two consecutive stretches adds up. */
  lemma {:induction false} HitsSplit(a: int, m: nat, n: nat, b: nat, r: int)
    requires b > 0
    ensures Hits(a, m + n, b, r) == Hits(a, m, b, r) + Hits(a + m, n, b, r)
    decreases n
  {
    if n > 0 {
      HitsSplit(a, m, n - 1, b, r);
      assert a + m + n - 1 == a + (m + n) - 1;
    }
  }

  /** A stretch of k * b consecutive values hits every residue exactly k times. */
  lemma {:induction false} HitsRuns(a: int, k: nat, b: nat, r: nat)
    requires 0 < b && r < b
    ensures Hits(a, k * b, b, r) == k
    decreases k
  {
    if k > 0 {
      assert k * b == b + (k - 1) * b;
      HitsShort(a, b, b, r);
      HitsSplit(a, b, (k - 1) * b, b, r);
      HitsRuns(a + b, k - 1, b, r);
    }
  }

  /** Unbiasedness: every result r < bound is the remainder of exactly
      (2^32 - min) / bound of the accepted candidates. */
  lemma Unbiased(bound: nat, r: nat)
    requires 2 <= bound < WORD && r < bound
    ensures Hits(MinAccepted(bound), WORD - MinAccepted(bound), bound, r) == (WORD - MinAccepted(bound)) / bound
  {
    var min := MinAccepted(bound);
    MinAcceptedValue(bound);
    var k := (WORD - min) / bound;
    assert WORD - min == k * bound;
    HitsRuns(min, k, bound, r);
  }
}
