/** The numeric primitives the game's C# code leans on: `Math.Pow` with a
    whole exponent, C#'s truncating integer division, and Unity's `Mathf`
    clamps and interpolation. Currency and timings are `real` throughout. */
module Numerics {

  datatype Option<T> = None | Some(value: T)

  /** b^n for a natural exponent. */
  function Pow(b: real, n: nat): real
  {
    if n == 0 then 1.0 else b * Pow(b, n - 1)
  }

  /** `Math.Pow(b, e)` for a whole exponent `e` (a C# `int`). A zero base with a
      negative exponent is +Infinity in IEEE arithmetic; the model yields 0 there. */
  function IntPow(b: real, e: int): real
  {
    if e >= 0 then Pow(b, e)
    else if b == 0.0 then 0.0
    else PowNonZero(b, -e); 1.0 / Pow(b, -e)
  }

  lemma {:induction false} PowNonZero(b: real, n: nat)
    requires b != 0.0
    ensures Pow(b, n) != 0.0
  {
    if n > 0 {
      PowNonZero(b, n - 1);
    }
  }

  lemma {:induction false} PowPositive(b: real, n: nat)
    requires b > 0.0
    ensures Pow(b, n) > 0.0
  {
    if n > 0 {
      PowPositive(b, n - 1);
    }
  }

  lemma {:induction false} PowAtLeastOne(b: real, n: nat)
    requires b >= 1.0
    ensures Pow(b, n) >= 1.0
  {
    if n > 0 {
      PowAtLeastOne(b, n - 1);
      assert b * Pow(b, n - 1) >= 1.0 * Pow(b, n - 1);
    }
  }

  /** With a base of at least 1, a larger exponent never gives a smaller power. */
  lemma {:induction false} PowMonotoneInExponent(b: real, m: nat, n: nat)
    requires b >= 1.0 && m <= n
    ensures Pow(b, m) <= Pow(b, n)
  {
    if m < n {
      PowMonotoneInExponent(b, m, n - 1);
      PowAtLeastOne(b, n - 1);
      assert Pow(b, n - 1) <= b * Pow(b, n - 1);
    }
  }

  /** Each further factor of a base above 1 strictly increases the power. */
  lemma PowStrictStep(b: real, n: nat)
    requires b > 1.0
    ensures 0.0 < Pow(b, n) < Pow(b, n + 1)
  {
    PowPositive(b, n);
    assert Pow(b, n + 1) == b * Pow(b, n);
    assert 1.0 * Pow(b, n) < b * Pow(b, n);
  }

  /** Math.Pow over whole exponents is strictly increasing for a base above 1,
      on negative exponents as well, and always positive. */
  lemma IntPowStrictStep(b: real, e: int)
    requires b > 1.0
    ensures 0.0 < IntPow(b, e) < IntPow(b, e + 1)
  {
    if e >= 0 {
      PowStrictStep(b, e);
    } else {
      var k: nat := -e;
      PowStrictStep(b, k - 1);
      var p := Pow(b, k - 1);
      assert Pow(b, k) == b * p;
      ReciprocalShrinks(b, p);
      assert IntPow(b, e) == 1.0 / (b * p);
      assert IntPow(b, e + 1) == 1.0 / p;
    }
  }

  /** Dividing 1 by a larger positive amount gives less. */
  lemma ReciprocalShrinks(b: real, p: real)
    requires b > 1.0 && p > 0.0
    ensures 0.0 < 1.0 / (b * p) < 1.0 / p
  {
    var x := 1.0 / (b * p);
    assert x * (b * p) == 1.0;
    assert (x * b) * p == 1.0;
    assert x * b == 1.0 / p;
    assert x * 1.0 < x * b;
  }

  /** C#'s `/` on `int` for a positive divisor: the quotient is truncated
      toward zero, so it is the quotient of |a| by d with the sign of `a`. */
  function TruncDiv(a: int, d: int): int
    requires d > 0
  {
    if a >= 0 then a / d else -((-a) / d)
  }

  /** C#'s `%` on `int` for a positive divisor: the remainder of |a| by d
      with the sign of `a`. */
  function TruncMod(a: int, d: int): int
    requires d > 0
  {
    if a >= 0 then a % d else -((-a) % d)
  }

  /** C#'s division identity: quotient times divisor plus remainder gives the
      dividend back, and the remainder is smaller than the divisor and takes
      the sign of the dividend. */
  lemma TruncDivModIdentity(a: int, d: int)
    requires d > 0
    ensures a == TruncDiv(a, d) * d + TruncMod(a, d)
    ensures a >= 0 ==> 0 <= TruncMod(a, d) < d
    ensures a < 0 ==> -d < TruncMod(a, d) <= 0
  {
    var n := if a >= 0 then a else -a;
    assert n == (n / d) * d + n % d;
    if a < 0 {
      assert (-(n / d)) * d == -((n / d) * d);
    }
  }

  /** The truncated quotient rounds toward zero: below `a` by less than one
      divisor for a non-negative `a`, above it for a negative one. */
  lemma TruncDivBounds(a: int, d: int)
    requires d > 0
    ensures a >= 0 ==> TruncDiv(a, d) * d <= a < TruncDiv(a, d) * d + d
    ensures a < 0 ==> a <= TruncDiv(a, d) * d < a + d
  {
    TruncDivModIdentity(a, d);
  }

  /** The truncated quotient of a non-negative dividend is non-negative. */
  lemma TruncDivNonNegative(a: int, d: int)
    requires d > 0 && a >= 0
    ensures TruncDiv(a, d) >= 0
  {
    TruncDivBounds(a, d);
    if TruncDiv(a, d) < 0 {
      IntMulMonotone(TruncDiv(a, d) + 1, 0, d);
    }
  }

  /** Truncating division by a positive divisor never decreases as the dividend grows. */
  lemma TruncDivMonotone(a: int, b: int, d: int)
    requires d > 0 && 0 <= a <= b
    ensures TruncDiv(a, d) <= TruncDiv(b, d)
  {
    TruncDivBounds(a, d);
    TruncDivBounds(b, d);
    if TruncDiv(b, d) < TruncDiv(a, d) {
      IntMulMonotone(TruncDiv(b, d) + 1, TruncDiv(a, d), d);
    }
  }

  /** Multiplying by a non-negative integer keeps the order. */
  lemma IntMulMonotone(x: int, y: int, d: int)
    requires x <= y && d >= 0
    ensures x * d <= y * d
  {
    assert y * d - x * d == (y - x) * d;
  }

  /** `Mathf.Clamp01`. */
  function Clamp01(x: real): (r: real)
    ensures 0.0 <= r <= 1.0
    ensures 0.0 <= x <= 1.0 ==> r == x
  {
    if x < 0.0 then 0.0 else if x > 1.0 then 1.0 else x
  }

  /** `Mathf.Clamp` on `int`: the lower bound is compared first. */
  function ClampInt(v: int, lo: int, hi: int): (r: int)
    ensures lo <= hi ==> lo <= r <= hi
    ensures lo <= v <= hi ==> r == v
  {
    if v < lo then lo else if v > hi then hi else v
  }

  /** `Mathf.Lerp`: the interpolation parameter is clamped to [0, 1]. */
  function Lerp(a: real, b: real, t: real): real
  {
    a + (b - a) * Clamp01(t)
  }

  /** Interpolating upward from `a` never leaves [a, b]. */
  lemma LerpBounds(a: real, b: real, t: real)
    requires a <= b
    ensures a <= Lerp(a, b, t) <= b
  {
    var w, s := b - a, Clamp01(t);
    ScaleWithinUnit(w, s);
    assert Lerp(a, b, t) == a + w * s;
  }

  lemma ScaleWithinUnit(w: real, s: real)
    requires w >= 0.0 && 0.0 <= s <= 1.0
    ensures 0.0 <= w * s <= w
  {
    assert w * (1.0 - s) >= 0.0;
  }

  /** Products of non-negative reals are monotone in both factors. */
  lemma MulMonotone(a: real, b: real, c: real, d: real)
    requires 0.0 <= a <= c && 0.0 <= b <= d
    ensures a * b <= c * d
  {
    assert a * b <= a * d;
    assert a * d <= c * d;
  }

  /** The product of a sequence of reals. */
  function Prod(s: seq<real>): real
  {
    if s == [] then 1.0 else s[0] * Prod(s[1..])
  }

  /** `p` is `x` times `y`; stated as a predicate so that lemmas about
      products pass it on without unfolding the multiplication. */
  predicate IsProduct(p: real, x: real, y: real)
  {
    p == x * y
  }

  lemma {:induction false} ProdConcat(a: seq<real>, b: seq<real>)
    ensures IsProduct(Prod(a + b), Prod(a), Prod(b))
  {
    if a != [] {
      assert (a + b)[1..] == a[1..] + b;
      ProdConcat(a[1..], b);
      MulAssociative(a[0], Prod(a[1..]), Prod(b));
    } else {
      assert a + b == b;
    }
  }

  lemma MulAssociative(a: real, b: real, c: real)
    ensures a * (b * c) == (a * b) * c
  {
  }

  lemma MulLeftCommutative(a: real, b: real, c: real)
    ensures a * (b * c) == b * (a * c)
  {
  }

  /** Any one factor can be taken out of the product. */
  lemma ProdRemove(s: seq<real>, j: nat)
    requires j < |s|
    ensures IsProduct(Prod(s), s[j], Prod(s[..j] + s[j + 1..]))
  {
    var before, after := s[..j], s[j + 1..];
    ProdSplit(s, j);
    ProdConcat(before, [s[j]] + after);
    ProdCons(s[j], after);
    ProdConcat(before, after);
    SwapFactor(Prod(s), Prod(before), Prod([s[j]] + after), s[j], Prod(after), Prod(before + after));
  }

  lemma ProdSplit(s: seq<real>, j: nat)
    requires j < |s|
    ensures Prod(s) == Prod(s[..j] + ([s[j]] + s[j + 1..]))
  {
    assert s == s[..j] + ([s[j]] + s[j + 1..]);
  }

  lemma ProdCons(x: real, rest: seq<real>)
    ensures IsProduct(Prod([x] + rest), x, Prod(rest))
  {
    assert ([x] + rest)[1..] == rest;
  }

  /** If ps = a * pt, pt = b * pr and pw = a * pr, then ps = b * pw. */
  lemma SwapFactor(ps: real, a: real, pt: real, b: real, pr: real, pw: real)
    requires IsProduct(ps, a, pt) && IsProduct(pt, b, pr) && IsProduct(pw, a, pr)
    ensures IsProduct(ps, b, pw)
  {
    MulLeftCommutative(a, b, pr);
  }

  /** Equal factors have equal products. */
  lemma SameProduct(p: real, x: real, y: real, q: real, x2: real, y2: real)
    requires IsProduct(p, x, y) && IsProduct(q, x2, y2) && x == x2 && y == y2
    ensures p == q
  {
  }

  lemma MultisetRemove<T>(s: seq<T>, j: nat)
    requires j < |s|
    ensures multiset(s[..j] + s[j + 1..]) == multiset(s) - multiset{s[j]}
  {
    assert s == s[..j] + [s[j]] + s[j + 1..];
  }

  /** In a permutation of `a`, some position holds `a[0]`, and removing it
      leaves a permutation of the rest of `a`. */
  lemma MatchFirst<T>(a: seq<T>, b: seq<T>) returns (j: nat)
    requires multiset(a) == multiset(b) && a != []
    ensures j < |b| && b[j] == a[0]
    ensures multiset(a[1..]) == multiset(b[..j] + b[j + 1..])
  {
    assert a[0] in multiset(b);
    j :| 0 <= j < |b| && b[j] == a[0];
    MultisetRemoveFirst(a);
    MultisetRemove(b, j);
  }

  lemma MultisetRemoveFirst<T>(s: seq<T>)
    requires s != []
    ensures multiset(s[1..]) == multiset(s) - multiset{s[0]}
  {
    assert s == [s[0]] + s[1..];
  }

  /** Reordering the factors does not change the product. */
  lemma {:induction false} ProdPermutation(a: seq<real>, b: seq<real>)
    requires multiset(a) == multiset(b)
    ensures Prod(a) == Prod(b)
    decreases |a|
  {
    if a != [] {
      var j := MatchFirst(a, b);
      var rest := b[..j] + b[j + 1..];
      ProdPermutation(a[1..], rest);
      ProdRemove(b, j);
      ProdCons(a[0], a[1..]);
      assert [a[0]] + a[1..] == a;
      SameProduct(Prod(a), a[0], Prod(a[1..]), Prod(b), b[j], Prod(rest));
    } else {
      assert |b| == |multiset(b)| == 0;
    }
  }

  function Max(a: real, b: real): real
  {
    if a >= b then a else b
  }

  function Abs(x: real): real
  {
    if x < 0.0 then -x else x
  }
}
