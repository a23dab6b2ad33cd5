/** Powers of two, alignment, and the exclusive-or that finds a block's buddy. */
module Dyadic {

  function Pow2(n: nat): (p: nat)
    ensures p >= 1
  {
    if n == 0 then 1 else 2 * Pow2(n - 1)
  }

  predicate Aligned(o: nat, k: nat) {
    o % Pow2(k) == 0
  }

  /** Bitwise exclusive or of two unsigned integers. */
  function Xor(a: nat, b: nat): nat
    decreases a + b
  {
    if a == 0 && b == 0 then 0
    else (if a % 2 == b % 2 then 0 else 1) + 2 * Xor(a / 2, b / 2)
  }

  lemma {:induction false} Pow2Monotone(j: nat, k: nat)
    requires j <= k
    ensures Pow2(j) <= Pow2(k)
    ensures j < k ==> 2 * Pow2(j) <= Pow2(k)
  {
    if j < k {
      Pow2Monotone(j, k - 1);
    }
  }

  lemma AlignedHalf(o: nat, k: nat)
    ensures Aligned(2 * o, k + 1) <==> Aligned(o, k)
  {
    var p := Pow2(k);
    assert o == p * (o / p) + o % p;
    assert 2 * o == (2 * p) * (o / p) + 2 * (o % p);
    ModUnique(2 * o, 2 * p, o / p, 2 * (o % p));
  }

  /** A multiple of m strictly between -m and m is zero. */
  lemma SmallMultiple(m: int, d: int)
    requires 0 < m && -m < m * d < m
    ensures d == 0
  {
    assert d >= 1 ==> m * d >= m;
    assert d <= -1 ==> m * d <= -m;
  }

  lemma ModUnique(x: nat, m: nat, q: nat, r: nat)
    requires m > 0 && x == m * q + r && r < m
    ensures x % m == r && x / m == q
  {
    var d := x / m - q;
    assert m * d == r - x % m by {
      assert x == m * (x / m) + x % m;
      assert m * (x / m) - m * q == m * d;
    }
    SmallMultiple(m, d);
  }

  lemma AlignedDown(o: nat, k: nat)
    requires Aligned(o, k + 1)
    ensures Aligned(o, k)
  {
    var p := Pow2(k);
    var q := o / (2 * p);
    assert o == (2 * p) * q;
    assert o == p * (2 * q) + 0;
    ModUnique(o, p, 2 * q, 0);
  }

  /** An aligned offset either starts a pair of buddies or is half-way through one. */
  lemma AlignedUp(o: nat, k: nat)
    requires Aligned(o, k)
    ensures Aligned(o + Pow2(k), k)
    ensures Aligned(o, k + 1) ==> !Aligned(o + Pow2(k), k + 1)
    ensures !Aligned(o, k + 1) ==> o >= Pow2(k) && Aligned(o - Pow2(k), k + 1) && Aligned(o + Pow2(k), k + 1)
  {
    var p := Pow2(k);
    var q := o / p;
    assert o == p * q;
    assert o + p == p * (q + 1) + 0;
    ModUnique(o + p, p, q + 1, 0);
    if q % 2 == 0 {
      EvenMultiple(o, p, q / 2);
    } else {
      OddMultiple(o, p, q / 2);
    }
  }

  lemma EvenMultiple(o: nat, p: nat, h: nat)
    requires p > 0 && o == p * (2 * h)
    ensures o % (2 * p) == 0 && (o + p) % (2 * p) == p
  {
    assert o == (2 * p) * h + 0;
    ModUnique(o, 2 * p, h, 0);
    ModUnique(o + p, 2 * p, h, p);
  }

  lemma OddMultiple(o: nat, p: nat, h: nat)
    requires p > 0 && o == p * (2 * h + 1)
    ensures o >= p && o % (2 * p) == p && (o - p) % (2 * p) == 0 && (o + p) % (2 * p) == 0
  {
    assert o == (2 * p) * h + p;
    assert o + p == (2 * p) * (h + 1) + 0;
    assert (2 * p) * h >= 0;
    ModUnique(o, 2 * p, h, p);
    ModUnique(o - p, 2 * p, h, 0);
    ModUnique(o + p, 2 * p, h + 1, 0);
  }

  lemma SameSize(a: nat, b: nat, p: nat)
    requires p > 0 && a % p == 0 && b % p == 0 && a < b + p && b < a + p
    ensures a == b
  {
    assert a == p * (a / p) && b == p * (b / p);
    assert p * (a / p - b / p) == a - b;
    SmallMultiple(p, a / p - b / p);
  }

  /** Two aligned power-of-two intervals that overlap are nested. */
  lemma {:induction false} Nested(a: nat, j: nat, b: nat, k: nat)
    requires j <= k && Aligned(a, j) && Aligned(b, k)
    requires a < b + Pow2(k) && b < a + Pow2(j)
    ensures b <= a && a + Pow2(j) <= b + Pow2(k)
    decreases k - j
  {
    if j == k {
      SameSize(a, b, Pow2(k));
    } else {
      AlignedUp(a, j);
      Nested(if Aligned(a, j + 1) then a else a - Pow2(j), j + 1, b, k);
    }
  }

  /** Where the buddy of the block at `o` of order `k` lies. */
  function BuddyOf(o: nat, k: nat): nat
    requires Aligned(o, k)
  {
    AlignedUp(o, k);
    if Aligned(o, k + 1) then o + Pow2(k) else o - Pow2(k)
  }

  lemma {:induction false} XorZero(a: nat)
    ensures Xor(a, 0) == a
  {
    if a > 0 { XorZero(a / 2); }
  }

  lemma AlignedIsEven(o: nat, k: nat)
    requires Aligned(o, k) && k > 0
    ensures o == 2 * (o / 2)
  {
    assert o == Pow2(k) * (o / Pow2(k));
    assert o == 2 * (Pow2(k - 1) * (o / Pow2(k)));
  }

  /** The exclusive or with a power of two moves an aligned offset to its buddy. */
  lemma {:induction false} XorIsBuddy(o: nat, k: nat)
    requires Aligned(o, k)
    ensures Xor(o, Pow2(k)) == BuddyOf(o, k)
    decreases k
  {
    if k == 0 {
      XorZero(o / 2);
      assert Pow2(1) == 2;
    } else {
      AlignedIsEven(o, k);
      var h := o / 2;
      AlignedHalf(h, k - 1);
      AlignedHalf(h, k);
      XorIsBuddy(h, k - 1);
      assert Pow2(k) / 2 == Pow2(k - 1);
    }
  }

  /** Taking the buddy twice leads back, and the buddy is equally aligned. */
  lemma BuddyInvolution(o: nat, k: nat)
    requires Aligned(o, k)
    ensures Aligned(BuddyOf(o, k), k) && BuddyOf(BuddyOf(o, k), k) == o
  {
    AlignedUp(o, k);
    if !Aligned(o, k + 1) {
      AlignedDown(o - Pow2(k), k);
    }
  }
}
