/** Bit operations on unbounded naturals, defined bit by bit, and what the masks and
    shifts used by the repository mean arithmetically. */
module Bits {

  function Pow2(k: nat): (p: nat)
    ensures p > 0
  {
    if k == 0 then 1 else 2 * Pow2(k - 1)
  }

  /** a & b */
  function And(a: nat, b: nat): nat {
    if a == 0 || b == 0 then 0 else 2 * And(a / 2, b / 2) + (a % 2) * (b % 2)
  }

  /** a | b */
  function Or(a: nat, b: nat): nat
    decreases a + b
  {
    if a == 0 && b == 0 then 0
    else 2 * Or(a / 2, b / 2) + (if a % 2 == 1 || b % 2 == 1 then 1 else 0)
  }

  lemma Pow2Values()
    ensures Pow2(1) == 2 && Pow2(7) == 128 && Pow2(16) == 65536
    ensures Pow2(32) == 0x1_0000_0000 && Pow2(48) == 0x1_0000_0000_0000
  {
    Pow2Add(8, 8);
    Pow2Add(16, 16);
    Pow2Add(32, 16);
    assert Pow2(4) == 16;
    Pow2Add(4, 4);
    Pow2Add(4, 3);
  }

  lemma {:induction false} Pow2Add(i: nat, j: nat)
    ensures Pow2(i + j) == Pow2(i) * Pow2(j)
  {
    if i > 0 {
      Pow2Add(i - 1, j);
      assert Pow2(i + j) == 2 * Pow2(i - 1 + j);
      assert 2 * (Pow2(i - 1) * Pow2(j)) == 2 * Pow2(i - 1) * Pow2(j);
    }
  }

  lemma MulMono(d: nat, a: nat, b: nat)
    requires a <= b
    ensures d * a <= d * b
  {}

  /** Division with remainder has one answer. */
  lemma DivModUnique(x: nat, d: nat, q: nat, r: nat)
    requires r < d && x == d * q + r
    ensures x / d == q && x % d == r
  {
    var q' := x / d;
    assert x == d * q' + x % d;
    if q < q' { MulMono(d, q + 1, q'); }
    if q' < q { MulMono(d, q' + 1, q); }
  }

  /** Splitting off the lowest bit commutes with division by a power of two. */
  lemma HalfMod(x: nat, p: nat)
    requires p > 0
    ensures x % (2 * p) == 2 * (x / 2 % p) + x % 2
    ensures x / (2 * p) == x / 2 / p
  {
    var h := x / 2;
    var q, r := h / p, 2 * (h % p) + x % 2;
    assert h == p * q + h % p;
    assert 2 * (p * q) == (2 * p) * q;
    DivModUnique(x, 2 * p, q, r);
  }

  lemma AndStep(a: nat, b: nat)
    ensures And(a, b) == 2 * And(a / 2, b / 2) + (a % 2) * (b % 2)
  {
    if a == 0 || b == 0 { assert (a % 2) * (b % 2) == 0; }
  }

  /** x & (2^k - 1) is x mod 2^k: what every mask in the repository relies on. */
  lemma {:induction false} AndMask(x: nat, k: nat)
    ensures And(x, Pow2(k) - 1) == x % Pow2(k)
  {
    if k > 0 {
      var p := Pow2(k - 1);
      var m := Pow2(k) - 1;
      assert m / 2 == p - 1 && m % 2 == 1;
      AndStep(x, m);
      AndMask(x / 2, k - 1);
      HalfMod(x, p);
    }
  }

  /** v << k */
  function Shl(v: nat, k: nat): nat {
    if k == 0 then v else 2 * Shl(v, k - 1)
  }

  /** s >> k */
  function Shr(s: nat, k: nat): nat {
    if k == 0 then s else Shr(s / 2, k - 1)
  }

  lemma {:induction false} ShlIsProduct(v: nat, k: nat)
    ensures Shl(v, k) == v * Pow2(k)
  {
    if k > 0 {
      ShlIsProduct(v, k - 1);
      DoubleFactor(v, Pow2(k - 1));
    }
  }

  lemma DoubleFactor(o: nat, p: nat)
    ensures 2 * (o * p) == o * (2 * p)
  {}

  lemma {:induction false} ShrIsQuotient(s: nat, k: nat)
    ensures Shr(s, k) == s / Pow2(k)
  {
    if k > 0 {
      ShrIsQuotient(s / 2, k - 1);
      HalfMod(s, Pow2(k - 1));
    }
  }

  /** (v << k) | s keeps the low k bits of s and ors its other bits into v. */
  lemma {:induction false} OrShifted(v: nat, s: nat, k: nat)
    ensures Or(Shl(v, k), s) == Shl(Or(v, Shr(s, k)), k) + s % Pow2(k)
  {
    if k > 0 {
      OrShifted(v, s / 2, k - 1);
      HalfMod(s, Pow2(k - 1));
      OrDoubled(Shl(v, k - 1), s);
    }
  }

  lemma OrDoubled(a: nat, s: nat)
    ensures Or(2 * a, s) == 2 * Or(a, s / 2) + s % 2
  {}

  lemma {:induction false} OrZero(v: nat)
    ensures Or(v, 0) == v
  {
    if v > 0 { OrZero(v / 2); }
  }

  lemma {:induction false} OrAtLeast(a: nat, b: nat)
    ensures Or(a, b) >= a && Or(a, b) >= b
  {
    if a > 0 || b > 0 { OrAtLeast(a / 2, b / 2); }
  }

  lemma {:induction false} OrBound(a: nat, b: nat, k: nat)
    requires a < Pow2(k) && b < Pow2(k)
    ensures Or(a, b) < Pow2(k)
  {
    if k > 0 && (a > 0 || b > 0) { OrBound(a / 2, b / 2, k - 1); }
  }

  ghost predicate IsPow2(c: nat) {
    exists k: nat :: c == Pow2(k)
  }

  /** The test "c & (c - 1)" of a positive number is zero exactly for powers of two. */
  lemma {:induction false} AndPredecessor(c: nat)
    requires c > 0
    ensures And(c, c - 1) == 0 <==> IsPow2(c)
  {
    if c == 1 {
      assert c == Pow2(0);
    } else {
      AndStep(c, c - 1);
      if c % 2 == 1 {
        AndSelf(c / 2);
        OddIsNotPow2(c);
      } else {
        AndPredecessor(c / 2);
        HalfOfPow2(c);
      }
    }
  }

  lemma {:induction false} AndSelf(a: nat)
    ensures And(a, a) == a
  {
    if a > 0 { AndSelf(a / 2); assert (a % 2) * (a % 2) == a % 2; }
  }

  lemma OddIsNotPow2(c: nat)
    requires c > 1 && c % 2 == 1
    ensures !IsPow2(c)
  {
    forall k: nat ensures c != Pow2(k) {
      if k > 0 { assert Pow2(k) == 2 * Pow2(k - 1); }
    }
  }

  lemma HalfOfPow2(c: nat)
    requires c > 1 && c % 2 == 0
    ensures IsPow2(c) <==> IsPow2(c / 2)
  {
    if IsPow2(c / 2) {
      var k: nat :| c / 2 == Pow2(k);
      assert c == Pow2(k + 1);
    }
    if IsPow2(c) {
      var k: nat :| c == Pow2(k);
      assert k > 0;
      assert c / 2 == Pow2(k - 1);
    }
  }
}
