/**
 * The parts of JavaScript's Math object and number operators that the game uses.
 *
 * Math.floor and Math.ceil are exact on reals. Math.sqrt, Math.cos and Math.sin
 * are not computed: every operation that needs one takes it as a parameter of
 * type real -> real, and IsSqrt states the one property the model relies on.
 * Math.random() is a parameter too: a single draw r with IsRandom(r), or a
 * stream of draws with IsRandomStream.
 */
module JsMath {
  /** Math.PI, written out to the digits JavaScript prints. */
  const PI: real := 3.141592653589793

  /** Math.ceil */
  function Ceil(x: real): (c: int)
    ensures x <= c as real < x + 1.0
  {
    -((-x).Floor)
  }

  /** Truncation toward zero, as JavaScript's % uses it. */
  function Trunc(x: real): (t: int)
    ensures 0.0 <= x ==> t == x.Floor
    ensures x < 0.0 ==> t == Ceil(x)
  {
    if 0.0 <= x then x.Floor else Ceil(x)
  }

  /** JavaScript's remainder a % b: the sign follows the dividend. */
  function JsRem(a: real, b: real): real
    requires b != 0.0
  {
    a - b * Trunc(a / b) as real
  }

  /** Math.random() returns a number in [0, 1). */
  predicate IsRandom(r: real) {
    0.0 <= r < 1.0
  }

  /** A supply of successive Math.random() results. */
  ghost predicate IsRandomStream(random: nat -> real) {
    forall n: nat :: IsRandom(random(n))
  }

  /** cos and sin give a point on the unit circle for every angle. */
  ghost predicate IsUnitCircle(cos: real -> real, sin: real -> real) {
    forall t: real :: cos(t) * cos(t) + sin(t) * sin(t) == 1.0
  }

  /** sqrt is the non-negative square root on the non-negative reals. */
  ghost predicate IsSqrt(sqrt: real -> real) {
    forall x: real :: 0.0 <= x ==> 0.0 <= sqrt(x) && sqrt(x) * sqrt(x) == x
  }

  lemma SqrtOfZero(sqrt: real -> real)
    requires IsSqrt(sqrt)
    ensures sqrt(0.0) == 0.0
  {
    SqrtAtMost(sqrt, 0.0, 0.0);
  }

  lemma SqrtPositive(sqrt: real -> real, x: real)
    requires IsSqrt(sqrt) && 0.0 < x
    ensures 0.0 < sqrt(x)
  {
    assert sqrt(x) * sqrt(x) == x;
  }

  /** Comparing a square root with s is comparing the radicand with s squared. */
  lemma SqrtAtMost(sqrt: real -> real, x: real, s: real)
    requires IsSqrt(sqrt) && 0.0 <= x
    ensures sqrt(x) <= s <==> 0.0 <= s && x <= s * s
  {
    var q := sqrt(x);
    assert 0.0 <= q && q * q == x;
    if q <= s {
      SquareMonotone(q, s);
    } else if 0.0 <= s {
      StrictSquareMonotone(s, q);
    }
  }

  lemma ProductPositive(a: real, b: real)
    requires 0.0 < a && 0.0 < b
    ensures 0.0 < a * b
  {
  }

  lemma SquarePositive(a: real)
    requires a != 0.0
    ensures 0.0 < a * a
  {
    if a < 0.0 {
      assert a * a == (-a) * (-a);
    }
  }

  lemma SquareNonNegative(a: real)
    ensures 0.0 <= a * a
  {
    if a != 0.0 {
      SquarePositive(a);
    }
  }

  lemma StrictSquareMonotone(a: real, b: real)
    requires 0.0 <= a < b
    ensures a * a < b * b
  {
    ProductPositive(b - a, b + a);
    calc {
      (b - a) * (b + a);
      b * b - a * a;
    }
  }

  lemma SquareMonotone(a: real, b: real)
    requires 0.0 <= a <= b
    ensures a * a <= b * b
  {
    if a < b {
      StrictSquareMonotone(a, b);
    }
  }

  /** Equal factors give equal products (a congruence step the solver does not always take). */
  lemma ScaleEqual(a: real, b: real, c: real)
    requires a == b
    ensures a * c == b * c
  {
  }

  /** One more repetition of a per-frame change v adds v: (k + 1) * v == k * v + v. */
  lemma OneMoreFrame(k: nat, v: real)
    ensures (k + 1) as real * v == k as real * v + v
  {
  }
}
